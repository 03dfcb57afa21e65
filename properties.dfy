/** Properties of the conversion run: the split of each class, the class
    registry and `classes.txt`, the class ids carried by the labels, the
    lines of `mayBeTruncated.txt`, and when a run completes. */
module PipelineProperties {
  import opened Scaling
  import opened Splitting
  import opened Pipeline

  /** The elements of a list whose split is `which`, in order. */
  function Select<T>(xs: seq<T>, splits: seq<Split>, which: Split): (r: seq<T>)
    requires |splits| == |xs|
    ensures forall x :: x in r ==> x in xs
  {
    if xs == [] then []
    else (if splits[0] == which then [xs[0]] else []) + Select(xs[1..], splits[1..], which)
  }

  /** A class that converts completely appends the truncation entries of all
      its images, in order, whatever their splits. */
  lemma {:induction false} ClassFromTrunc(o: Outputs, results: seq<Option<ImageOutput>>, splits: seq<Split>)
    requires |splits| == |results| && AllSome(results)
    ensures ClassFrom(o, results, splits).out.trunc == o.trunc + Truncs(results)
    decreases |results|
  {
    if results != [] {
      ClassFromTrunc(Place(o, results[0].value, splits[0]), results[1..], splits[1..]);
    }
  }

  /** The images written to one split. */
  function SplitWrites(o: Outputs, which: Split): seq<Written>
  {
    if which == Val then o.val else o.train
  }

  /** A class that converts completely writes each image, in order, to the
      split chosen for it and to no other. */
  lemma {:induction false} ClassFromWrites(o: Outputs, results: seq<Option<ImageOutput>>, splits: seq<Split>, which: Split)
    requires |splits| == |results| && AllSome(results)
    ensures SplitWrites(ClassFrom(o, results, splits).out, which) == SplitWrites(o, which) + Writtens(Select(results, splits, which))
    decreases |results|
  {
    if results != [] {
      var x, rest := results[0], results[1..];
      var o1 := Place(o, x.value, splits[0]);
      assert ClassFrom(o, results, splits) == ClassFrom(o1, rest, splits[1..]);
      ClassFromWrites(o1, rest, splits[1..], which);
      if splits[0] == which {
        assert SplitWrites(o1, which) == SplitWrites(o, which) + [x.value.written];
        assert Select(results, splits, which) == [x] + Select(rest, splits[1..], which);
        assert Writtens(Select(results, splits, which))
            == [x.value.written] + Writtens(Select(rest, splits[1..], which));
      } else {
        assert SplitWrites(o1, which) == SplitWrites(o, which);
        assert Select(results, splits, which) == Select(rest, splits[1..], which);
      }
    }
  }

  /** Under the counter's assignment, the validation elements are the first
      `ValCount(n, t)` and the training elements all the others. */
  lemma {:induction false} SelectAssign<T>(xs: seq<T>, t: int)
    ensures Select(xs, Assign(|xs|, t), Val) == xs[..ValCount(|xs|, t)]
    ensures Select(xs, Assign(|xs|, t), Train) == xs[ValCount(|xs|, t)..]
    decreases |xs|
  {
    var n := |xs|;
    if n > 0 {
      var splits, rest := Assign(n, t), xs[1..];
      assert splits[1..] == Assign(n - 1, t - 1);
      SelectAssign(rest, t - 1);
      var v, v1 := ValCount(n, t), ValCount(n - 1, t - 1);
      if t > 0 {
        assert splits[0] == Val && v == v1 + 1;
        assert Select(xs, splits, Val) == [xs[0]] + rest[..v1];
        assert xs[..v] == [xs[0]] + rest[..v1];
        assert Select(xs, splits, Train) == rest[v1..];
        assert xs[v..] == rest[v1..];
      } else {
        assert splits[0] == Train && v == 0 && v1 == 0;
        assert Select(xs, splits, Val) == [];
        assert Select(xs, splits, Train) == [xs[0]] + rest;
        assert xs[0..] == [xs[0]] + rest;
      }
    }
  }

  /** A registered class that converts completely: its first
      `ValCount(n, (int)(n * percentage))` images go to `val`, the others to
      `train`, in listing order, converted with the current counter value as
      class id; the truncation entries of all its images follow in order. */
  lemma ClassSplit(o: Outputs, cfg: Config, c: ClassDir)
    requires c.name != NoLogo
    requires ConvertClass(o, cfg, c).ok
    ensures var n := |c.images|;
      var v := ValCount(n, TestCount(n, cfg.percentage));
      var results := ImageResults(cfg, c.name, o.classNumber, c.images);
      var r := ConvertClass(o, cfg, c).out;
      AllSome(results) &&
      r.val == o.val + Writtens(results[..v]) &&
      r.train == o.train + Writtens(results[v..]) &&
      r.trunc == o.trunc + Truncs(results)
  {
    var n := |c.images|;
    var results := ImageResults(cfg, c.name, o.classNumber, c.images);
    var splits := ClassSplits(cfg, n);
    assert ClassFrom(o, results, splits).ok;
    ClassFromTrunc(o, results, splits);
    ClassFromWrites(o, results, splits, Val);
    ClassFromWrites(o, results, splits, Train);
    SelectAssign(results, TestCount(n, cfg.percentage));
  }

  /** A completed run is its first class followed by a run over the rest. */
  lemma RunStep(o: Outputs, cfg: Config, classes: seq<ClassDir>)
    requires classes != []
    requires RunFrom(o, cfg, classes).ok
    ensures ConvertClass(o, cfg, classes[0]).ok
    ensures RunFrom(o, cfg, classes) == RunFrom(ConvertClass(o, cfg, classes[0]).out, cfg, classes[1..])
    ensures Names(classes) == [classes[0].name] + Names(classes[1..])
  {
  }

  /** A completed run appends, in class order, the registered classes'
      capitalised names each followed by a comma. */
  lemma {:induction false} RunClassList(o: Outputs, cfg: Config, classes: seq<ClassDir>)
    requires RunFrom(o, cfg, classes).ok
    ensures RunFrom(o, cfg, classes).out.classesText == o.classesText + ClassList(cfg, Names(classes))
    decreases |classes|
  {
    if classes != [] {
      RunStep(o, cfg, classes);
      var c, rest := classes[0], classes[1..];
      var s := ConvertClass(o, cfg, c).out;
      RunClassList(s, cfg, rest);
      var entry, tail := ClassEntry(cfg, c.name), ClassList(cfg, Names(rest));
      assert ClassList(cfg, Names(classes)) == entry + tail;
      assert s.classesText == o.classesText + entry;
      assert (o.classesText + entry) + tail == o.classesText + (entry + tail);
    }
  }

  /** Each image in the saved list comes from a successful conversion in
      the list of results. */
  lemma {:induction false} WrittensFrom(results: seq<Option<ImageOutput>>)
    ensures forall w :: w in Writtens(results) ==> exists x :: x in results && x.Some? && x.value.written == w
    decreases |results|
  {
    if results != [] {
      WrittensFrom(results[1..]);
      forall w | w in Writtens(results)
        ensures exists x :: x in results && x.Some? && x.value.written == w
      {
        if results[0].Some? && w == results[0].value.written {
          assert results[0] in results;
        } else {
          assert w in Writtens(results[1..]);
          var x :| x in results[1..] && x.Some? && x.value.written == w;
          assert x in results;
        }
      }
    }
  }

  /** Every image written between the outputs `before` and `after`, to either
      split, carries the class id `id` (DARKNET) or the capitalised class name
      (KITTI) on every label line. */
  predicate NewWritesCarry(cfg: Config, name: string, id: int, before: Outputs, after: Outputs)
  {
    |before.val| <= |after.val| && |before.train| <= |after.train| &&
    (forall w :: w in after.val[|before.val|..] ==> LabelsCarry(cfg, name, id, w)) &&
    (forall w :: w in after.train[|before.train|..] ==> LabelsCarry(cfg, name, id, w))
  }

  /** Every image a registered class writes carries the class's id or name
      on every label line. */
  lemma ClassLabels(o: Outputs, cfg: Config, c: ClassDir)
    requires c.name != NoLogo
    requires ConvertClass(o, cfg, c).ok
    ensures NewWritesCarry(cfg, c.name, o.classNumber, o, ConvertClass(o, cfg, c).out)
  {
    var n := |c.images|;
    var v := ValCount(n, TestCount(n, cfg.percentage));
    var results := ImageResults(cfg, c.name, o.classNumber, c.images);
    var r := ConvertClass(o, cfg, c).out;
    ClassSplit(o, cfg, c);
    assert r.val[|o.val|..] == Writtens(results[..v]);
    assert r.train[|o.train|..] == Writtens(results[v..]);
    WrittensFrom(results[..v]);
    WrittensFrom(results[v..]);
    forall x | x in results && x.Some?
      ensures LabelsCarry(cfg, c.name, o.classNumber, x.value.written)
    {
      var k :| 0 <= k < |results| && results[k] == x;
      assert x == ConvertImage(cfg, c.name, o.classNumber, c.images[k]);
    }
  }

  /** A completed run advances the counter by the number of registered
      classes. */
  lemma {:induction false} RunClassCount(o: Outputs, cfg: Config, classes: seq<ClassDir>)
    requires RunFrom(o, cfg, classes).ok
    ensures RunFrom(o, cfg, classes).out.classNumber == o.classNumber + RegCount(cfg, Names(classes))
    decreases |classes|
  {
    if classes != [] {
      RunStep(o, cfg, classes);
      var c, rest := classes[0], classes[1..];
      var s := ConvertClass(o, cfg, c).out;
      RunClassCount(s, cfg, rest);
      assert RegCount(cfg, Names(classes)) == (if Registers(cfg, c.name) then 1 else 0) + RegCount(cfg, Names(rest));
    }
  }

  /** The classes `a, b, no-logo, c` without the `no-logo` option give exactly
      `"A,B,C,"`, trailing comma included. */
  lemma ClassListExample()
    ensures ClassList(Config(0.1, false, 500, Darknet), ["a", "b", NoLogo, "c"]) == "A,B,C,"
  {
    var cfg := Config(0.1, false, 500, Darknet);
    assert ["a", "b", NoLogo, "c"][1..] == ["b", NoLogo, "c"];
    assert ["b", NoLogo, "c"][1..] == [NoLogo, "c"];
    assert [NoLogo, "c"][1..] == ["c"];
    assert ClassList(cfg, ["c"]) == "C,";
    assert ClassList(cfg, [NoLogo, "c"]) == "C,";
  }

  /** A run over `a + b` is a run over `a` continued with `b` when `a`
      completes. */
  lemma {:induction false} RunCompose(o: Outputs, cfg: Config, a: seq<ClassDir>, b: seq<ClassDir>)
    ensures RunFrom(o, cfg, a + b) ==
      if RunFrom(o, cfg, a).ok then RunFrom(RunFrom(o, cfg, a).out, cfg, b) else RunFrom(o, cfg, a)
    decreases |a|
  {
    if a != [] {
      assert (a + b)[1..] == a[1..] + b;
      var s := ConvertClass(o, cfg, a[0]);
      RunCompose(s.out, cfg, a[1..], b);
    } else {
      assert a + b == b;
    }
  }

  /** A completed run reaches class `i` with a completed run over the classes
      before it, converts class `i` from there and continues with the rest. */
  lemma RunSplitAt(o: Outputs, cfg: Config, classes: seq<ClassDir>, i: nat)
    requires i < |classes|
    requires RunFrom(o, cfg, classes).ok
    ensures RunFrom(o, cfg, classes[..i]).ok
    ensures var before := RunFrom(o, cfg, classes[..i]).out;
      ConvertClass(before, cfg, classes[i]).ok &&
      RunFrom(o, cfg, classes) == RunFrom(ConvertClass(before, cfg, classes[i]).out, cfg, classes[i + 1..])
  {
    var pre, post := classes[..i], classes[i..];
    assert classes == pre + post;
    RunCompose(o, cfg, pre, post);
    assert post[0] == classes[i] && post[1..] == classes[i + 1..];
  }

  /** A completed run completes its first `i` classes and then class `i`. */
  lemma RunReaches(o: Outputs, cfg: Config, classes: seq<ClassDir>, i: nat)
    requires i < |classes|
    requires RunFrom(o, cfg, classes).ok
    ensures RunFrom(o, cfg, classes[..i]).ok
    ensures ConvertClass(RunFrom(o, cfg, classes[..i]).out, cfg, classes[i]).ok
  {
    RunSplitAt(o, cfg, classes, i);
  }

  /** Class `i` of a completed run is converted with the counter at its start
      value plus the number of registered classes before it: ids are dense,
      in listing order. */
  lemma RunClassId(o: Outputs, cfg: Config, classes: seq<ClassDir>, i: nat)
    requires i < |classes|
    requires RunFrom(o, cfg, classes).ok
    ensures RunFrom(o, cfg, classes[..i]).ok
    ensures RunFrom(o, cfg, classes[..i]).out.classNumber == o.classNumber + RegCount(cfg, Names(classes[..i]))
  {
    RunSplitAt(o, cfg, classes, i);
    RunClassCount(o, cfg, classes[..i]);
  }

  /** Class `i` of a completed run that is not `no-logo` labels every image
      it writes with the number of classes registered before it, counted
      from the counter's start value. */
  lemma RunLabelIds(o: Outputs, cfg: Config, classes: seq<ClassDir>, i: nat)
    requires i < |classes| && classes[i].name != NoLogo
    requires RunFrom(o, cfg, classes).ok
    ensures RunFrom(o, cfg, classes[..i]).ok
    ensures var before := RunFrom(o, cfg, classes[..i]).out;
      before.classNumber == o.classNumber + RegCount(cfg, Names(classes[..i])) &&
      ConvertClass(before, cfg, classes[i]).ok &&
      NewWritesCarry(cfg, classes[i].name, before.classNumber, before, ConvertClass(before, cfg, classes[i]).out)
  {
    RunReaches(o, cfg, classes, i);
    var before := RunFrom(o, cfg, classes[..i]).out;
    RunClassCount(o, cfg, classes[..i]);
    ClassLabels(before, cfg, classes[i]);
  }

  /** Registration adds one to the count exactly for a registered class. */
  lemma {:induction false} RegCountAppend(cfg: Config, names: seq<string>, n: string)
    ensures RegCount(cfg, names + [n]) == RegCount(cfg, names) + (if Registers(cfg, n) then 1 else 0)
  {
    if names != [] {
      assert (names + [n])[1..] == names[1..] + [n];
      RegCountAppend(cfg, names[1..], n);
    } else {
      assert [n][1..] == [];
    }
  }

  /** Ids strictly increase: a registered class gets a smaller id than every
      class after it. */
  lemma RegCountIncreasing(cfg: Config, names: seq<string>, i: nat, j: nat)
    requires i < j <= |names| && Registers(cfg, names[i])
    ensures RegCount(cfg, names[..i]) < RegCount(cfg, names[..j])
    decreases j - i
  {
    assert names[..i + 1] == names[..i] + [names[i]];
    RegCountAppend(cfg, names[..i], names[i]);
    if j > i + 1 {
      assert names[..j] == names[..j - 1] + [names[j - 1]];
      RegCountAppend(cfg, names[..j - 1], names[j - 1]);
      if i + 1 < j - 1 {
        RegCountIncreasing(cfg, names, i, j - 1);
      }
    }
  }

  /** An image whose bitmap can be scaled. */
  predicate Scalable(cfg: Config, img: Image)
  {
    ScaleImage(img.width, img.height, cfg.sideLength).Some?
  }

  /** A class whose images can all be scaled; `no-logo` scales nothing. */
  predicate ClassScalable(cfg: Config, c: ClassDir)
  {
    c.name == NoLogo || forall k :: 0 <= k < |c.images| ==> Scalable(cfg, c.images[k])
  }

  /** The recursive form of "every conversion succeeded" is the pointwise one. */
  lemma {:induction false} AllSomeAt(results: seq<Option<ImageOutput>>)
    ensures AllSome(results) <==> forall k :: 0 <= k < |results| ==> results[k].Some?
    decreases |results|
  {
    if results != [] {
      AllSomeAt(results[1..]);
      assert forall k :: 0 < k < |results| ==> results[k] == results[1..][k - 1];
    }
  }

  /** A class completes exactly when it is `no-logo` or all its images can be
      scaled. */
  lemma ClassCompletes(o: Outputs, cfg: Config, c: ClassDir)
    ensures ConvertClass(o, cfg, c).ok <==> ClassScalable(cfg, c)
  {
    if c.name != NoLogo {
      var results := ImageResults(cfg, c.name, o.classNumber, c.images);
      AllSomeAt(results);
      assert forall k :: 0 <= k < |results| ==> results[k] == ConvertImage(cfg, c.name, o.classNumber, c.images[k]);
    }
  }

  /** A run completes exactly when every class can be scaled: the only way a
      run stops early is a bitmap that cannot be created. */
  lemma {:induction false} RunCompletes(o: Outputs, cfg: Config, classes: seq<ClassDir>)
    ensures RunFrom(o, cfg, classes).ok <==> forall i :: 0 <= i < |classes| ==> ClassScalable(cfg, classes[i])
    decreases |classes|
  {
    if classes != [] {
      ClassCompletes(o, cfg, classes[0]);
      RunCompletes(ConvertClass(o, cfg, classes[0]).out, cfg, classes[1..]);
      assert forall i :: 0 < i < |classes| ==> classes[i] == classes[1..][i - 1];
    }
  }

  /** A run over images no larger than the side length always completes. */
  lemma RunWithinSideCompletes(o: Outputs, cfg: Config, classes: seq<ClassDir>)
    requires forall i, k :: 0 <= i < |classes| && 0 <= k < |classes[i].images| ==>
      classes[i].images[k].width <= cfg.sideLength && classes[i].images[k].height <= cfg.sideLength
    ensures RunFrom(o, cfg, classes).ok
  {
    forall i, k | 0 <= i < |classes| && 0 <= k < |classes[i].images|
      ensures Scalable(cfg, classes[i].images[k])
    {
      var img := classes[i].images[k];
      ScaleWithinSide(img.width, img.height, cfg.sideLength);
    }
    RunCompletes(o, cfg, classes);
  }

  /** The truncation entries of a list of images, in order, read from their
      annotation boxes alone. */
  function ImageTruncs(images: seq<Image>): seq<string>
  {
    if images == [] then []
    else TruncFrom(images[0].fileName, BoxLines(images[0].lines)) + ImageTruncs(images[1..])
  }

  /** The truncation entries of one class: none for `no-logo`, whose images
      are never read. */
  function ClassTruncs(c: ClassDir): seq<string>
  {
    if c.name == NoLogo then [] else ImageTruncs(c.images)
  }

  /** The truncation entries of a class listing, class by class in listing
      order. */
  function RunTruncs(classes: seq<ClassDir>): seq<string>
  {
    if classes == [] then []
    else ClassTruncs(classes[0]) + RunTruncs(classes[1..])
  }

  /** When every image converts, the entries of the conversions are those
      read from the images' boxes, whatever the class id and configuration. */
  lemma {:induction false} TruncsOfResults(cfg: Config, name: string, id: int, images: seq<Image>)
    requires AllSome(ImageResults(cfg, name, id, images))
    ensures Truncs(ImageResults(cfg, name, id, images)) == ImageTruncs(images)
    decreases |images|
  {
    if images != [] {
      var results := ImageResults(cfg, name, id, images);
      assert results[1..] == ImageResults(cfg, name, id, images[1..]);
      TruncsOfResults(cfg, name, id, images[1..]);
    }
  }

  /** A completed class appends exactly its own truncation entries. */
  lemma ClassTrunc(o: Outputs, cfg: Config, c: ClassDir)
    requires ConvertClass(o, cfg, c).ok
    ensures ConvertClass(o, cfg, c).out.trunc == o.trunc + ClassTruncs(c)
  {
    if c.name != NoLogo {
      ClassSplit(o, cfg, c);
      TruncsOfResults(cfg, c.name, o.classNumber, c.images);
    }
  }

  /** A completed run appends to `mayBeTruncated.txt` exactly the entries of
      every class except `no-logo`, in listing order, after what it held. */
  lemma {:induction false} RunTrunc(o: Outputs, cfg: Config, classes: seq<ClassDir>)
    requires RunFrom(o, cfg, classes).ok
    ensures RunFrom(o, cfg, classes).out.trunc == o.trunc + RunTruncs(classes)
    decreases |classes|
  {
    if classes != [] {
      RunStep(o, cfg, classes);
      var c, rest := classes[0], classes[1..];
      var s := ConvertClass(o, cfg, c).out;
      RunTrunc(s, cfg, rest);
      var entries := ClassTruncs(c);
      ClassTrunc(o, cfg, c);
      assert RunTruncs(classes) == entries + RunTruncs(rest);
      assert (o.trunc + entries) + RunTruncs(rest) == o.trunc + (entries + RunTruncs(rest));
    }
  }

  /** From a fresh start, a completed run leaves `mayBeTruncated.txt` holding
      its header line followed by the entries of every class but `no-logo`. */
  lemma TruncFile(cfg: Config, classes: seq<ClassDir>)
    requires RunFrom(Initial(), cfg, classes).ok
    ensures RunFrom(Initial(), cfg, classes).out.trunc == [TruncHeader] + RunTruncs(classes)
  {
    RunTrunc(Initial(), cfg, classes);
  }
}
