/** The conversion loop of `Main` as an object: the class counter, the text
    of `classes.txt`, the lines of `mayBeTruncated.txt` and the images and
    label files written to each split are fields that the loops update. */
module Converter {
  import opened Text
  import opened Scaling
  import opened Boxes
  import opened Splitting
  import opened Pipeline

  class Converter {
    const cfg: Config
    var classNumber: int
    var classesText: string
    var truncLines: seq<string>
    var trainOut: seq<Written>
    var valOut: seq<Written>

    /** The outputs accumulated so far. */
    function State(): Outputs
      reads this
    {
      Outputs(classNumber, classesText, truncLines, trainOut, valOut)
    }

    /** A fresh run: counter 0, empty class list, truncation list holding only
        its header line, nothing written. */
    constructor (cfg: Config)
      ensures this.cfg == cfg && State() == Initial()
    {
      this.cfg := cfg;
      classNumber := 0;
      classesText := "";
      truncLines := [TruncHeader];
      trainOut := [];
      valOut := [];
    }

    /** The label line of one annotation box, in the configured format. */
    method LabelLineOf(name: string, id: int, b: RawBox, s: Scaled) returns (l: LabelLine)
      requires s.width > 0 && s.height > 0
      ensures l == LabelFor(cfg, name, id, b, s)
    {
      match cfg.format
      case Kitti =>
        var capitalized := UppercaseFirst(name);
        l := KittiLine(capitalized, KittiBox(b, s.ratio));
      case Darknet =>
        var p := DarknetPixels(b, s.ratio, s.width, s.height);
        l := DarknetLine(id, Normalize(p, s.width, s.height));
    }

    /** The label lines of one image, one per annotation line after the
        first, in order; each box on the left or top edge adds the image's
        name to the truncation list. */
    method WriteLabels(name: string, id: int, img: Image, s: Scaled) returns (labels: seq<LabelLine>)
      requires s.width > 0 && s.height > 0
      modifies this`truncLines
      ensures labels == ImageLabels(cfg, name, id, img.lines, s)
      ensures truncLines == old(truncLines) + TruncFrom(img.fileName, BoxLines(img.lines))
    {
      var lines := img.lines;
      labels := [];
      var k := 1;
      while k < |lines|
        invariant (|lines| == 0 && k == 1) || 1 <= k <= |lines|
        invariant |labels| == k - 1
        invariant forall i :: 0 <= i < k - 1 ==> labels[i] == LabelFor(cfg, name, id, lines[i + 1], s)
        invariant |lines| == 0 ==> truncLines == old(truncLines)
        invariant |lines| > 0 ==> truncLines == old(truncLines) + TruncFrom(img.fileName, lines[1..k])
      {
        var b := lines[k];
        var l := LabelLineOf(name, id, b, s);
        labels := labels + [l];
        assert lines[1..k + 1] == lines[1..k] + [b];
        TruncFromAppend(img.fileName, lines[1..k], b);
        if IsTruncCandidate(b) {
          truncLines := truncLines + [img.fileName];
        }
        k := k + 1;
      }
      assert |lines| > 0 ==> lines[1..k] == BoxLines(lines);
    }

    /** One image of a registered class: scale it, write its label file and
        truncation entries, and record it in `val` or `train`. */
    method ProcessImage(name: string, id: int, img: Image, toVal: bool) returns (ok: bool)
      modifies this
      ensures ok == ConvertImage(cfg, name, id, img).Some?
      ensures ok ==> State() == Place(old(State()), ConvertImage(cfg, name, id, img).value, if toVal then Val else Train)
      ensures !ok ==> State() == old(State())
    {
      var scaled := ScaleImage(img.width, img.height, cfg.sideLength);
      if scaled.None? {
        return false;
      }
      var s := scaled.value;
      var labels := WriteLabels(name, id, img, s);
      var w := Written(img.fileName, s.width, s.height, labels);
      if toVal {
        valOut := valOut + [w];
      } else {
        trainOut := trainOut + [w];
      }
      ok := true;
    }

    /** The images of a registered class in order, the first ones to `val`
        while the counter `(int)(n * percentage)` is still positive, stopping
        at the first image that cannot be converted. */
    method ProcessImages(name: string, images: seq<Image>) returns (ok: bool)
      modifies this
      ensures Step(State(), ok) == ClassFrom(old(State()), ImageResults(cfg, name, old(classNumber), images), ClassSplits(cfg, |images|))
    {
      var n := |images|;
      var amountForTesting := TestCount(n, cfg.percentage);
      ghost var start := State();
      ghost var results := ImageResults(cfg, name, classNumber, images);
      ghost var splits := ClassSplits(cfg, n);
      var j := 0;
      while j < n
        invariant 0 <= j <= n
        invariant amountForTesting == TestCount(n, cfg.percentage) - j
        invariant classNumber == start.classNumber
        invariant ClassFrom(State(), results[j..], splits[j..]) == ClassFrom(start, results, splits)
      {
        AssignAt(n, TestCount(n, cfg.percentage), j);
        ok := ProcessImage(name, classNumber, images[j], amountForTesting > 0);
        if !ok {
          assert results[j..][0] == results[j];
          return;
        }
        assert results[j..][1..] == results[j + 1..] && splits[j..][1..] == splits[j + 1..];
        amountForTesting := amountForTesting - 1;
        j := j + 1;
      }
      assert results[n..] == [] && splits[n..] == [];
      ok := true;
    }

    /** One class directory: unless it is `no-logo`, its images; then, if the
        class registers, its capitalised name in `classes.txt` and the next
        counter value. */
    method ProcessClass(c: ClassDir) returns (ok: bool)
      modifies this
      ensures Step(State(), ok) == ConvertClass(old(State()), cfg, c)
    {
      if c.name != NoLogo {
        ok := ProcessImages(c.name, c.images);
        if !ok {
          return;
        }
      }
      if c.name != NoLogo || cfg.useNoLogo {
        var entry := UppercaseFirst(c.name);
        classesText := classesText + (entry + ",");
        classNumber := classNumber + 1;
      }
      ok := true;
    }

    /** All class directories in listing order, stopping at the first failure. */
    method Run(classes: seq<ClassDir>) returns (ok: bool)
      modifies this
      ensures Step(State(), ok) == RunFrom(old(State()), cfg, classes)
    {
      ghost var start := State();
      var i := 0;
      while i < |classes|
        invariant 0 <= i <= |classes|
        invariant RunFrom(State(), cfg, classes[i..]) == RunFrom(start, cfg, classes)
      {
        ok := ProcessClass(classes[i]);
        if !ok {
          return;
        }
        assert classes[i..][1..] == classes[i + 1..];
        i := i + 1;
      }
      ok := true;
    }
  }

  /** A whole conversion: a fresh converter run over the class directories.
      The outputs and the success flag are those of the run as a function. */
  method Convert(cfg: Config, classes: seq<ClassDir>) returns (out: Outputs, ok: bool)
    ensures Step(out, ok) == RunFrom(Initial(), cfg, classes)
  {
    var converter := new Converter(cfg);
    ok := converter.Run(classes);
    out := converter.State();
  }
}
