# FlickrLogos-32 dataset converter — Dafny model

`ParseFlickrLogos.cs` converts the FlickrLogos-32 dataset into a training
layout for an object detector. The program walks the class directories in
listing order. For every class other than `no-logo` it scales each image so
that its longer side is the configured side length, and sends the image and
its label file to `val` or `train` according to a decrementing counter. Each
annotation box becomes one KITTI or DARKNET label line. A box on the left or
top edge adds the image's name to `mayBeTruncated.txt`. Each registered class
adds its capitalised name and a comma to `classes.txt` and takes the next
class id.

The model has two layers:

- **Functions** (`Pipeline`) state what one image (`ConvertImage`), one class
  (`ConvertClass`) and a whole run (`RunFrom`) produce, as a value of the
  accumulated `Outputs`: the class counter, the text of `classes.txt`, the
  lines of `mayBeTruncated.txt`, and the images with their label files
  written to `train` and to `val`, in write order.
- **An object** (`Converter.Converter`) mirrors the imperative `Main` loop.
  Its fields are updated by nested loops over classes, images and annotation
  lines. Each method is proved equal to the corresponding function.
  `UppercaseFirst` and the DARKNET box clamping are methods, because the
  source mutates a char array and reassigns locals there.

`PipelineProperties` proves what a run promises:

- the split of each class;
- the exact text of `classes.txt`;
- the exact lines of `mayBeTruncated.txt`: its header, then one entry per
  box on the left or top edge, class by class;
- dense, increasing class ids;
- the labels each image gets: one per box, built at the image's scaled ratio
  and size and tagged with the class id counted before its class;
- that every output only grows at its end, whether or not the run completes;
- how runs compose.

Modules: `Numeric` (the `(int)` cast and `Math.Min`), `Text`
(`UppercaseFirst`), `Scaling` (`ScaleImage`), `Boxes` (KITTI and DARKNET box
arithmetic, truncation candidates), `Splitting` (the val/train counter),
`Pipeline`, `PipelineProperties` and `Converter`.

Numbers are exact reals. Every C# `(int)` cast is `Numeric.Trunc`, which
truncates toward zero.

### Behaviour worth knowing

- **The first images go to `val`.** The counter `amountForTesting` starts at
  `t = (int)(n * percentage)` (`ParseFlickrLogos.cs:133`). An image goes to
  `val` while the counter is still positive (`:148-157`), and the counter
  drops after each image (`:215`). So the first `t` images of a class go to
  `val` and the rest to `train`.
- **`no-logo` images are never processed.** Every image of a class named
  `no-logo` is skipped, whatever `useNoLogo` says (`:135`). The option only
  decides whether that class gets an id and a `classes.txt` entry
  (`:219-222`).
- **Casts truncate.** Scaled coordinates and dimensions come from the `(int)`
  cast, which truncates toward zero; nothing is rounded.

## Model

| member | source | states |
|---|---|---|
| Numeric.Trunc | ParseFlickrLogos.cs:170-173 | the `(int)` cast: the result is within one below the value for non-negative values, and within one above it for negative values (truncation toward zero) |
| Numeric.Min | ParseFlickrLogos.cs:250 | `Math.Min` is one of its arguments and no larger than either |
| Text.ToUpper | ParseFlickrLogos.cs:242 | `char.ToUpper` on ASCII: lower-case letters move to upper case; every other character is unchanged; the result is never a lower-case letter |
| Text.Capitalize | ParseFlickrLogos.cs:235-244 | the result of `UppercaseFirst` has the input's length; the empty string stays empty; otherwise only the first character is upper-cased and the rest is unchanged |
| Text.UppercaseFirst | ParseFlickrLogos.cs:235-244 | the char-array method returns exactly `Capitalize` of its input |
| Scaling.RatioFits | ParseFlickrLogos.cs:248-250 | `min(M/W, M/H)` scales both sides into `M`, and one side exactly to `M` |
| Scaling.RatioSign | ParseFlickrLogos.cs:248-250 | a side length `M <= 0` gives a ratio that scales a side to at most 0 |
| Scaling.ScaleImage | ParseFlickrLogos.cs:248-255 | on success the ratio is `min(M/W, M/H)`, each new side is the old side times the ratio truncated toward zero, and both are positive, so the `Bitmap` constructor accepts them |
| Scaling.ScaleSucceeds | ParseFlickrLogos.cs:252-255 | scaling succeeds iff both sides times the ratio are at least 1 before truncation; a side length `M <= 0` always fails |
| Scaling.ScaleWithinSide | ParseFlickrLogos.cs:248-255 | an image with both sides at most `M` always scales successfully |
| Scaling.ScaleFits | ParseFlickrLogos.cs:248-253 | both scaled sides are at most `M`; the longer original side becomes exactly `M` |
| Boxes.KittiBox | ParseFlickrLogos.cs:170-173 | each corner is the matching scaled raw coordinate truncated toward zero (below it by less than 1 when it is non-negative, above it by less than 1 otherwise); for non-negative box sizes and ratio, `x1 <= x2` and `y1 <= y2` |
| Boxes.KittiExample | ParseFlickrLogos.cs:170-175 | box `(10, 10, 20, 30)` at ratio 0.5 gives corners `5 5 15 20` |
| Boxes.DarknetBox | ParseFlickrLogos.cs:179-201 | a centre that truncates to 0 becomes exactly 1, and any other centre is kept, so the centre is never 0; the width drops by exactly 1 iff the clamped centre plus the width exceeds the image width, and is unchanged otherwise; the same holds for the height |
| Boxes.DarknetPixels | ParseFlickrLogos.cs:179-201 | the method that reassigns `x1, y1, x2, y2` in place computes `DarknetBox` |
| Boxes.DarknetZeroCenterClamped | ParseFlickrLogos.cs:185-192 | example: box `(0, 0, 1, 1)` at ratio 1 in a 100-by-100 image has a centre that truncates to `(0, 0)`, clamped to `(1, 1)` |
| Boxes.DarknetMayStillOverflow | ParseFlickrLogos.cs:194-201 | the clamping does not keep the box inside the image: box `(8, 0, 4, 2)` at ratio 1 in a 10-by-10 image becomes centre `(10, 1)` and size `(3, 2)`, so centre plus width is 13, beyond the width 10 |
| Boxes.CandidateOnEdge | ParseFlickrLogos.cs:207 | a truncation candidate (raw `x` or `y` equal to 0) has its KITTI box start at the left or the top edge of the scaled image |
| Boxes.Normalize | ParseFlickrLogos.cs:203 | each emitted value times the scaled image side gives back the pixel value |
| Splitting.TestCount | ParseFlickrLogos.cs:133 | the counter's start value is `n * percentage` truncated toward zero |
| Splitting.TestCountRange | ParseFlickrLogos.cs:133 | for a percentage in `[0, 1]` the start value is between 0 and `n` |
| Splitting.Assign | ParseFlickrLogos.cs:133 | one split per image of the class |
| Splitting.AssignAt | ParseFlickrLogos.cs:148-157 | image `j` goes to `val` iff `j < t`, with `t = (int)(n * percentage)` and the counter decremented per image (`:215`) |
| Splitting.ValCount | ParseFlickrLogos.cs:133 | the number of validation images is `max(0, min(t, n))` |
| Splitting.AssignClosedForm | ParseFlickrLogos.cs:148-157 | the split list is `ValCount` times `val` followed by all `train` |
| Splitting.TenImagesSplit | ParseFlickrLogos.cs:133 | 10 images at 0.2 give 2 validation images (the first two) and 8 training images |
| Pipeline.Initial | ParseFlickrLogos.cs:119-125 | the state before the first class: counter 0, empty `classes.txt`, `mayBeTruncated.txt` holding only its header, nothing written |
| Pipeline.LabelFor | ParseFlickrLogos.cs:168-204 | a KITTI line carries the capitalised class name; a DARKNET line carries the class counter |
| Pipeline.LabelScaled | ParseFlickrLogos.cs:170-203 | a label's coordinates use the ratio returned by the scaling: the KITTI corners are `KittiBox(b, ratio)`, the DARKNET values are `DarknetBox(b, ratio, W', H')` normalised by the scaled sides `W'` and `H'` |
| Pipeline.ImageLabels | ParseFlickrLogos.cs:160-211 | one label line per annotation line after the first, in file order |
| Pipeline.TruncFrom | ParseFlickrLogos.cs:207-209 | an image adds at most one truncation entry per box |
| Pipeline.TruncFromAppend | ParseFlickrLogos.cs:207-209 | each further box adds the file name exactly when its raw `x` or `y` is 0 |
| Pipeline.TruncFromShape | ParseFlickrLogos.cs:207-209 | every truncation entry is the image's file name, and there is one iff some box has raw `x == 0` or `y == 0` |
| Pipeline.ConvertImage | ParseFlickrLogos.cs:141-212 | an image converts iff its bitmap can be scaled; it keeps its file name, has one label per box and carries its truncation entries; every label names the class |
| Pipeline.ConvertScaled | ParseFlickrLogos.cs:143-211 | a converted image is saved at the scaled size, and its label file is `ImageLabels` of its annotation lines at the scaled ratio and size |
| Pipeline.ImageResults | ParseFlickrLogos.cs:139-144 | one conversion result per image of the class |
| Pipeline.Place | ParseFlickrLogos.cs:148-157 | a converted image goes to exactly the chosen split; its truncation entries are appended; counter and class list are unchanged |
| Pipeline.ClassFrom | ParseFlickrLogos.cs:139-216 | the image loop succeeds iff every image converts; it adds exactly one write per image, never touches the counter or `classes.txt`, and the truncation list and both splits only grow at their end, also when it stops early |
| Pipeline.ClassSplits | ParseFlickrLogos.cs:133 | one split per image |
| Pipeline.ConvertClass | ParseFlickrLogos.cs:129-224 | `no-logo` writes no image, label or truncation entry, and takes an id iff `useNoLogo`; a completed class appends `ClassEntry` to `classes.txt` and raises the counter by one iff it registers; a failed class leaves the counter and `classes.txt` as they were; the truncation list and both splits only grow at their end |
| Pipeline.ClassEntry | ParseFlickrLogos.cs:219-222 | a class adds text to `classes.txt` iff it registers, and then exactly its capitalised name and a comma |
| Pipeline.Register | ParseFlickrLogos.cs:219-222 | a registering class appends `UppercaseFirst(name) + ","` and raises the counter by one; any other class changes nothing; the image outputs are untouched |
| Pipeline.RunFrom | ParseFlickrLogos.cs:127-225 | over the class loop, whether or not it completes, the counter never decreases and `classes.txt`, the truncation list and both splits only grow at their end |
| Pipeline.ClassList | ParseFlickrLogos.cs:221 | the class list is empty iff no listed class registers |
| Pipeline.Writtens | ParseFlickrLogos.cs:150-160 | the saved images of a list of conversions, one per success |
| Pipeline.RegCount | ParseFlickrLogos.cs:219-222 | the number of registering names is at most the number of names |
| PipelineProperties.Select | ParseFlickrLogos.cs:148-157 | the elements sent to one split all come from the class |
| PipelineProperties.ClassFromTrunc | ParseFlickrLogos.cs:207-209 | a completed class appends the truncation entries of all its images, in order |
| PipelineProperties.ClassFromWrites | ParseFlickrLogos.cs:148-157 | each image goes to its own split, in order, and to no other |
| PipelineProperties.SelectAssign | ParseFlickrLogos.cs:148-157 | under the counter, the first `ValCount` images are the `val` ones and all the others the `train` ones |
| PipelineProperties.ClassSplit | ParseFlickrLogos.cs:133-216 | a completed class adds its first `ValCount(n, (int)(n * percentage))` converted images to `val`, the rest to `train`, and all truncation entries in order |
| PipelineProperties.RunClassList | ParseFlickrLogos.cs:219-222 | `classes.txt` is the in-order concatenation of `UppercaseFirst(name) + ","` over the registered classes |
| PipelineProperties.RunClassCount | ParseFlickrLogos.cs:219-222 | the counter advances by exactly the number of registered classes |
| PipelineProperties.ClassListExample | ParseFlickrLogos.cs:219-222 | classes `a, b, no-logo, c` without `useNoLogo` give exactly `"A,B,C,"` |
| PipelineProperties.RunCompose | ParseFlickrLogos.cs:127-128 | a run over `a + b` is a run over `a` continued with `b`, or the failed run over `a` |
| PipelineProperties.RunSplitAt | ParseFlickrLogos.cs:127-225 | a completed run passes through class `i` after a completed run over the classes before it |
| PipelineProperties.RunReaches | ParseFlickrLogos.cs:127-225 | a completed run completes the classes before class `i` and then class `i` |
| PipelineProperties.RunClassId | ParseFlickrLogos.cs:119 | class `i` starts with the counter at its initial value plus the number of registered classes before it |
| PipelineProperties.ClassLabels | ParseFlickrLogos.cs:175 | every image a registered class writes labels each box with the current counter (DARKNET) or capitalised name (KITTI) |
| PipelineProperties.RunLabelIds | ParseFlickrLogos.cs:203 | class `i` starts with the counter at its start value plus the number of classes registered before it, and every label line it writes carries that counter: ids are dense and in listing order |
| PipelineProperties.RegCountAppend | ParseFlickrLogos.cs:222 | one more name adds one to the count iff it registers |
| PipelineProperties.RegCountIncreasing | ParseFlickrLogos.cs:219-222 | a registered class has a smaller id than every later class |
| PipelineProperties.ClassCompletes | ParseFlickrLogos.cs:135-144 | a class completes iff it is `no-logo` or every one of its images can be scaled |
| PipelineProperties.RunCompletes | ParseFlickrLogos.cs:127-144 | a run completes iff every class completes: the only early stop is a bitmap that cannot be created |
| PipelineProperties.TruncsOfResults | ParseFlickrLogos.cs:207-209 | when every image converts, the truncation entries of the conversions are those read from the images' boxes, whatever the class id and configuration |
| PipelineProperties.ClassTrunc | ParseFlickrLogos.cs:135-216 | a completed class appends exactly its own truncation entries, and `no-logo` none |
| PipelineProperties.RunTrunc | ParseFlickrLogos.cs:127-225 | a completed run appends to `mayBeTruncated.txt` the entries of every class except `no-logo`, class by class in listing order |
| PipelineProperties.TruncFile | ParseFlickrLogos.cs:123-225 | from a fresh start a completed run leaves `mayBeTruncated.txt` as its header line followed by those entries |
| PipelineProperties.RunWithinSideCompletes | ParseFlickrLogos.cs:127-144 | a run whose images all have sides at most the side length always completes |
| Converter.Converter.constructor | ParseFlickrLogos.cs:119-125 | a fresh run: counter 0, empty class list, truncation list holding only its header, nothing written |
| Converter.Converter.LabelLineOf | ParseFlickrLogos.cs:168-204 | the label line of one box is `LabelFor` |
| Converter.Converter.WriteLabels | ParseFlickrLogos.cs:160-211 | the line loop yields `ImageLabels` and appends exactly the image's truncation entries |
| Converter.Converter.ProcessImage | ParseFlickrLogos.cs:141-212 | one image: succeeds iff it converts; then the state is `Place` of the conversion into the chosen split, otherwise unchanged |
| Converter.Converter.ProcessImages | ParseFlickrLogos.cs:139-216 | the image loop with its decrementing counter is `ClassFrom` over the class's conversions and splits |
| Converter.Converter.ProcessClass | ParseFlickrLogos.cs:129-224 | one class directory is `ConvertClass` |
| Converter.Converter.Run | ParseFlickrLogos.cs:127-225 | the class loop is `RunFrom` over the listing |
| Converter.Convert | ParseFlickrLogos.cs:111-227 | a whole conversion from a fresh state is `RunFrom(Initial(), …)` |

## Left out

- Argument parsing and validation (`ParseFlickrLogos.cs:32-86`). The run takes a typed `Config` instead.
- Directory checks, creation and deletion (`:89-109`, `:111`, `:132`). The class listing is a parameter, a sequence of `ClassDir` values in listing order.
- Bitmap decoding, drawing, saving and disposal (`:143-157`, `:214`, `:255-258`). An image is its file name and decoded dimensions. The subset type `Dim` states that decoded dimensions are positive. A write is recorded as a `Written` value.
- Reading the annotation file and `float.Parse` (`:162-165`). An image carries its annotation lines already parsed into boxes. A malformed or missing file, which would throw, is not modelled.
- The only failure modelled is `new Bitmap` throwing on a side that is not positive. It aborts the rest of the run, and the outputs stop at the failing image. Exceptions from other I/O are not modelled.
- Text formatting of label lines and of the DARKNET quotients (`:175`, `:203`). Label lines are values: the KITTI class name and corners, or the DARKNET class id and normalized reals. The constant zero fields of the KITTI line are not represented.
- `Console` output (`:137`, `:223`).
- Numeric.Trunc: the cast is modelled on unbounded integers. C#'s unchecked `(int)` of NaN or of a value outside the 32-bit range gives an unspecified value, not the truncated one. The percentage is only parsed (`:49-54`), so it can be NaN or huge.
- Splitting.TestCount: follows `Numeric.Trunc`, so an out-of-range or NaN percentage is not modelled. The unchecked wrap-around of `amountForTesting--` (`:215`) past the smallest 32-bit value is not modelled either.
- Numeric.Trunc, Scaling.ScaleImage, Boxes.KittiBox, Boxes.DarknetBox, Boxes.Normalize: these use exact real arithmetic. IEEE single-precision rounding is not modelled, so a float off-by-one in `(int)(W * ratio)` is not reproduced.
- Text.ToUpper: covers ASCII letters only. Culture-specific upper-casing of other characters is not modelled; they are left unchanged.
- Output files with the same name overwrite each other on disk. The model records every write, in order, instead of a map from file name to contents.
- Bitmap allocation can also fail for very large sizes or lack of memory. The model does not capture this; only non-positive sides fail.
