/** The conversion run as functions over the accumulated outputs: per image,
    per class and over all class directories in listing order. */
module Pipeline {
  import opened Numeric
  import opened Text
  import opened Scaling
  import opened Boxes
  import opened Splitting

  datatype Format = Kitti | Darknet

  /** The typed run parameters: validation fraction, whether the `no-logo`
      class is registered, maximum side length, label format. */
  datatype Config = Config(percentage: real, useNoLogo: bool, sideLength: int, format: Format)

  /** An image of a class directory: its name without extension, its decoded
      dimensions and the lines of its annotation file. `lines[0]` is the
      file's count line; it is skipped without being read. */
  datatype Image = Image(fileName: string, width: Dim, height: Dim, lines: seq<RawBox>)

  datatype ClassDir = ClassDir(name: string, images: seq<Image>)

  /** One line of a label file. */
  datatype LabelLine =
    | KittiLine(className: string, corners: Corners)
    | DarknetLine(classId: int, box: Normalized)

  /** One converted image: the saved scaled bitmap's name and size, and the
      lines of its label file. */
  datatype Written = Written(fileName: string, width: int, height: int, labels: seq<LabelLine>)

  /** Everything the run accumulates: the class counter, the text of
      `classes.txt`, the lines of `mayBeTruncated.txt`, and the images and
      label files written to `train` and to `val`, in write order. */
  datatype Outputs = Outputs(classNumber: int, classesText: string, trunc: seq<string>,
                             train: seq<Written>, val: seq<Written>)

  /** The result of a step: the outputs so far and whether the run goes on
      (`false` once a bitmap could not be created, which aborts the run). */
  datatype Step = Step(out: Outputs, ok: bool)

  const NoLogo: string := "no-logo"

  const TruncHeader: string :=
    "Please check the following files for truncation. The objects are marked as \"not truncated\" right now, but have their bounding box on the edge of the image."

  /** The state before the first class: counter 0, an empty class list, the
      truncation list holding only its header, and nothing written. */
  function Initial(): (r: Outputs)
    ensures r.classNumber == 0 && r.classesText == "" && r.trunc == [TruncHeader]
    ensures r.train == [] && r.val == []
  {
    Outputs(0, "", [TruncHeader], [], [])
  }

  /** The label line for one annotation box of a class, in the chosen format. */
  function LabelFor(cfg: Config, name: string, id: int, b: RawBox, s: Scaled): (l: LabelLine)
    requires s.width > 0 && s.height > 0
    ensures cfg.format == Kitti ==> l.KittiLine? && l.className == Capitalize(name)
    ensures cfg.format == Darknet ==> l.DarknetLine? && l.classId == id
  {
    match cfg.format
    case Kitti => KittiLine(Capitalize(name), KittiBox(b, s.ratio))
    case Darknet => DarknetLine(id, Normalize(DarknetBox(b, s.ratio, s.width, s.height), s.width, s.height))
  }

  /** A label's coordinates are the box transforms at the scaled image's
      ratio: the KITTI corners, or the clamped DARKNET centre and size divided
      by the scaled sides. */
  lemma LabelScaled(cfg: Config, name: string, id: int, b: RawBox, s: Scaled)
    requires s.width > 0 && s.height > 0
    ensures var l := LabelFor(cfg, name, id, b, s);
      (cfg.format == Kitti ==> l.corners == KittiBox(b, s.ratio)) &&
      (cfg.format == Darknet ==> l.box == Normalize(DarknetBox(b, s.ratio, s.width, s.height), s.width, s.height))
  {
  }

  /** The annotation lines that carry a box: all but line 0. */
  function BoxLines(lines: seq<RawBox>): (r: seq<RawBox>)
    ensures |lines| > 0 ==> r == lines[1..]
    ensures |lines| == 0 ==> r == []
  {
    if |lines| == 0 then [] else lines[1..]
  }

  /** The label file of one image: one line per box line, in order. */
  function ImageLabels(cfg: Config, name: string, id: int, lines: seq<RawBox>, s: Scaled): (r: seq<LabelLine>)
    requires s.width > 0 && s.height > 0
    ensures |r| == |BoxLines(lines)|
    ensures forall k :: 0 <= k < |r| ==> r[k] == LabelFor(cfg, name, id, lines[k + 1], s)
  {
    var boxes := BoxLines(lines);
    seq(|boxes|, k requires 0 <= k < |boxes| => LabelFor(cfg, name, id, boxes[k], s))
  }

  /** The truncation-list entries of one image: its file name once per box
      that is a truncation candidate. */
  function TruncFrom(fileName: string, boxes: seq<RawBox>): (r: seq<string>)
    ensures |r| <= |boxes|
  {
    if boxes == [] then []
    else (if IsTruncCandidate(boxes[0]) then [fileName] else []) + TruncFrom(fileName, boxes[1..])
  }

  /** Appending a box adds one entry exactly when that box is a candidate. */
  lemma {:induction false} TruncFromAppend(fileName: string, boxes: seq<RawBox>, b: RawBox)
    ensures TruncFrom(fileName, boxes + [b])
         == TruncFrom(fileName, boxes) + (if IsTruncCandidate(b) then [fileName] else [])
  {
    if boxes != [] {
      assert (boxes + [b])[1..] == boxes[1..] + [b];
      TruncFromAppend(fileName, boxes[1..], b);
    }
  }

  /** Every entry is the image's file name, and there is one exactly when
      some box is a candidate. */
  lemma {:induction false} TruncFromShape(fileName: string, boxes: seq<RawBox>)
    ensures forall e :: e in TruncFrom(fileName, boxes) ==> e == fileName
    ensures TruncFrom(fileName, boxes) != [] <==> exists k :: 0 <= k < |boxes| && IsTruncCandidate(boxes[k])
  {
    if boxes != [] {
      TruncFromShape(fileName, boxes[1..]);
      if exists k :: 0 <= k < |boxes[1..]| && IsTruncCandidate(boxes[1..][k]) {
        var k :| 0 <= k < |boxes[1..]| && IsTruncCandidate(boxes[1..][k]);
        assert IsTruncCandidate(boxes[k + 1]);
      }
      if exists k :: 0 <= k < |boxes| && IsTruncCandidate(boxes[k]) {
        var k :| 0 <= k < |boxes| && IsTruncCandidate(boxes[k]);
        if k > 0 {
          assert IsTruncCandidate(boxes[1..][k - 1]);
        }
      }
    }
  }

  /** Every label line of a written image names its class: by the class id
      in DARKNET, by the capitalised class name in KITTI. */
  predicate LabelsCarry(cfg: Config, name: string, id: int, w: Written)
  {
    forall l :: l in w.labels ==>
      (cfg.format == Darknet ==> l.DarknetLine? && l.classId == id) &&
      (cfg.format == Kitti ==> l.KittiLine? && l.className == Capitalize(name))
  }

  /** What converting one image produces: the saved image with its label
      file, and its truncation-list entries. */
  datatype ImageOutput = ImageOutput(written: Written, trunc: seq<string>)

  /** Converting one image of a registered class: scale it, build its label
      file and its truncation entries. `None` when the scaled bitmap cannot be
      created (a side truncates to 0 or below), which aborts the run. */
  function ConvertImage(cfg: Config, name: string, id: int, img: Image): (r: Option<ImageOutput>)
    ensures r.Some? <==> ScaleImage(img.width, img.height, cfg.sideLength).Some?
    ensures r.Some? ==> r.value.written.fileName == img.fileName
    ensures r.Some? ==> |r.value.written.labels| == |BoxLines(img.lines)|
    ensures r.Some? ==> r.value.trunc == TruncFrom(img.fileName, BoxLines(img.lines))
    ensures r.Some? ==> LabelsCarry(cfg, name, id, r.value.written)
  {
    match ScaleImage(img.width, img.height, cfg.sideLength)
    case None => None
    case Some(s) =>
      Some(ImageOutput(Written(img.fileName, s.width, s.height, ImageLabels(cfg, name, id, img.lines, s)),
                       TruncFrom(img.fileName, BoxLines(img.lines))))
  }

  /** A converted image is saved at the scaled size, and its label file is
      built from its boxes at the scaled ratio and sides. */
  lemma ConvertScaled(cfg: Config, name: string, id: int, img: Image)
    requires ConvertImage(cfg, name, id, img).Some?
    ensures var s := ScaleImage(img.width, img.height, cfg.sideLength).value;
      var w := ConvertImage(cfg, name, id, img).value.written;
      w.width == s.width && w.height == s.height && w.labels == ImageLabels(cfg, name, id, img.lines, s)
  {
  }

  /** The conversion results of a class's images, in listing order. */
  function ImageResults(cfg: Config, name: string, id: int, images: seq<Image>): (r: seq<Option<ImageOutput>>)
    ensures |r| == |images|
  {
    seq(|images|, k requires 0 <= k < |images| => ConvertImage(cfg, name, id, images[k]))
  }

  /** Recording one converted image: its truncation entries are appended to
      `mayBeTruncated.txt`, the image and its label file to its split. */
  function Place(o: Outputs, x: ImageOutput, split: Split): (r: Outputs)
    ensures r.classNumber == o.classNumber && r.classesText == o.classesText
    ensures r.trunc == o.trunc + x.trunc
    ensures split == Train ==> r.train == o.train + [x.written] && r.val == o.val
    ensures split == Val ==> r.val == o.val + [x.written] && r.train == o.train
  {
    o.(trunc := o.trunc + x.trunc,
       train := if split == Train then o.train + [x.written] else o.train,
       val := if split == Val then o.val + [x.written] else o.val)
  }

  /** Whether every image of a list was converted. */
  predicate AllSome(results: seq<Option<ImageOutput>>)
  {
    results == [] || (results[0].Some? && AllSome(results[1..]))
  }

  /** The images of one class in order, each recorded in its split; stops at
      the first image that could not be converted, with the outputs as they
      were before it. */
  function ClassFrom(o: Outputs, results: seq<Option<ImageOutput>>, splits: seq<Split>): (r: Step)
    requires |splits| == |results|
    ensures r.out.classNumber == o.classNumber && r.out.classesText == o.classesText
    ensures r.ok <==> AllSome(results)
    ensures o.trunc <= r.out.trunc && o.train <= r.out.train && o.val <= r.out.val
    ensures r.ok ==> |r.out.train| + |r.out.val| == |o.train| + |o.val| + |results|
    decreases |results|
  {
    if results == [] then Step(o, true)
    else match results[0]
      case None => Step(o, false)
      case Some(x) => ClassFrom(Place(o, x, splits[0]), results[1..], splits[1..])
  }

  /** Whether a class takes an id and a `classes.txt` entry. */
  predicate Registers(cfg: Config, name: string)
  {
    name != NoLogo || cfg.useNoLogo
  }

  /** What a class adds to `classes.txt`: its capitalised name and a comma
      when it registers, nothing otherwise. */
  function ClassEntry(cfg: Config, name: string): (r: string)
    ensures r != "" <==> Registers(cfg, name)
    ensures r != "" ==> r == Capitalize(name) + ","
  {
    if Registers(cfg, name) then Capitalize(name) + "," else ""
  }

  /** Registering a class: its entry goes to `classes.txt` and, for a class
      that registers, the counter goes up by one. */
  function Register(o: Outputs, cfg: Config, name: string): (r: Outputs)
    ensures Registers(cfg, name) ==> r.classesText == o.classesText + Capitalize(name) + ","
    ensures Registers(cfg, name) ==> r.classNumber == o.classNumber + 1
    ensures !Registers(cfg, name) ==> r == o
    ensures r.trunc == o.trunc && r.train == o.train && r.val == o.val
  {
    o.(classesText := o.classesText + ClassEntry(cfg, name),
       classNumber := if Registers(cfg, name) then o.classNumber + 1 else o.classNumber)
  }

  /** The split assignment of a class with `n` images. */
  function ClassSplits(cfg: Config, n: nat): (s: seq<Split>)
    ensures |s| == n
  {
    Assign(n, TestCount(n, cfg.percentage))
  }

  /** One class directory: its images (none for `no-logo`) converted with the
      current counter value as class id, then its registration. */
  function ConvertClass(o: Outputs, cfg: Config, c: ClassDir): (r: Step)
    ensures c.name == NoLogo ==> r.ok && r.out.train == o.train && r.out.val == o.val && r.out.trunc == o.trunc
    ensures c.name == NoLogo ==> (r.out.classNumber == o.classNumber <==> !cfg.useNoLogo)
    ensures r.ok ==> r.out.classesText == o.classesText + ClassEntry(cfg, c.name)
    ensures r.ok ==> r.out.classNumber == o.classNumber + (if Registers(cfg, c.name) then 1 else 0)
    ensures !r.ok ==> r.out.classNumber == o.classNumber && r.out.classesText == o.classesText
    ensures o.trunc <= r.out.trunc && o.train <= r.out.train && o.val <= r.out.val
  {
    if c.name == NoLogo then Step(Register(o, cfg, c.name), true)
    else
      var s := ClassFrom(o, ImageResults(cfg, c.name, o.classNumber, c.images), ClassSplits(cfg, |c.images|));
      if s.ok then Step(Register(s.out, cfg, c.name), true) else s
  }

  /** All class directories in listing order; stops at the first failure. */
  function RunFrom(o: Outputs, cfg: Config, classes: seq<ClassDir>): (r: Step)
    ensures o.classNumber <= r.out.classNumber
    ensures o.classesText <= r.out.classesText
    ensures o.trunc <= r.out.trunc && o.train <= r.out.train && o.val <= r.out.val
    decreases |classes|
  {
    if classes == [] then Step(o, true)
    else
      var s := ConvertClass(o, cfg, classes[0]);
      if s.ok then RunFrom(s.out, cfg, classes[1..]) else s
  }

  /** The saved images of a list of conversions, in order; a failed
      conversion saves nothing. */
  function Writtens(results: seq<Option<ImageOutput>>): (r: seq<Written>)
    ensures |r| <= |results|
    ensures AllSome(results) ==> |r| == |results|
  {
    if results == [] then []
    else (if results[0].Some? then [results[0].value.written] else []) + Writtens(results[1..])
  }

  /** The truncation entries of a list of conversions, in order. */
  function Truncs(results: seq<Option<ImageOutput>>): seq<string>
  {
    if results == [] then []
    else (if results[0].Some? then results[0].value.trunc else []) + Truncs(results[1..])
  }

  function Names(classes: seq<ClassDir>): (r: seq<string>)
    ensures |r| == |classes|
  {
    if classes == [] then [] else [classes[0].name] + Names(classes[1..])
  }

  /** The text `classes.txt` receives for a list of class names. */
  function ClassList(cfg: Config, names: seq<string>): (r: string)
    ensures r == "" <==> RegCount(cfg, names) == 0
  {
    if names == [] then ""
    else ClassEntry(cfg, names[0]) + ClassList(cfg, names[1..])
  }

  /** How many of the names take an id. */
  function RegCount(cfg: Config, names: seq<string>): (n: nat)
    ensures n <= |names|
  {
    if names == [] then 0 else (if Registers(cfg, names[0]) then 1 else 0) + RegCount(cfg, names[1..])
  }
}
