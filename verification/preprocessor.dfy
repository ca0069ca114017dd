/** The dataset preprocessor: Pascal VOC boxes to YOLO annotations, the
    per-class statistics, the train/val/test split, the label files and
    their analysis, and the dataset description. Files, directories and
    XML parsing are not modelled: a parsed XML document and the contents
    of label files are parameters. */
module Preprocessor {
  import opened Wrappers
  import opened PySemantics
  import opened Sequences
  import opened Counter
  import opened ConfigValue
  import opened DataAugmentor

  // ---------------------------------------------------------------------
  // Class ids

  /** `class_to_id[name]` for `{name: idx for idx, name in
      enumerate(class_names)}`: the dict comprehension keeps the last index
      of a repeated name. None when the name is not configured. */
  function ClassToId(names: seq<string>, name: string): (r: Option<nat>)
    ensures r.Some? <==> name in names
    ensures r.Some? ==> r.value < |names| && names[r.value] == name
    ensures r.Some? ==> forall j | r.value < j < |names| :: names[j] != name
    decreases |names|
  {
    if names == [] then None
    else if names[|names| - 1] == name then Some(|names| - 1)
    else
      var r := ClassToId(names[..|names| - 1], name);
      assert names == names[..|names| - 1] + [names[|names| - 1]];
      r
  }

  /** With distinct class names, each name maps back to its own index. */
  lemma ClassToIdOfDistinct(names: seq<string>, i: nat)
    requires Distinct(names) && i < |names|
    ensures ClassToId(names, names[i]) == Some(i)
  {
  }

  // ---------------------------------------------------------------------
  // VOC to YOLO

  datatype VocObject = VocObject(name: string, xmin: int, ymin: int, xmax: int, ymax: int)

  /** The parts of a VOC document the conversion reads. */
  datatype VocDocument = VocDocument(width: int, height: int, objects: seq<VocObject>)

  /** The YOLO box of one VOC box in a W x H image. */
  function ToYolo(o: VocObject, classId: nat, width: int, height: int): (a: Annotation)
    requires width != 0 && height != 0
    ensures a.classId == classId && a.className == o.name
  {
    Annotation(classId, o.name,
      (o.xmin + o.xmax) as real / 2.0 / width as real,
      (o.ymin + o.ymax) as real / 2.0 / height as real,
      (o.xmax - o.xmin) as real / width as real,
      (o.ymax - o.ymin) as real / height as real)
  }

  /** The conversion loses nothing: the pixel corners come back from the
      normalised centre and size. */
  lemma ToYoloRoundTrip(o: VocObject, classId: nat, width: int, height: int)
    requires width > 0 && height > 0
    ensures var a := ToYolo(o, classId, width, height);
            (a.xc - a.w / 2.0) * width as real == o.xmin as real &&
            (a.xc + a.w / 2.0) * width as real == o.xmax as real &&
            (a.yc - a.h / 2.0) * height as real == o.ymin as real &&
            (a.yc + a.h / 2.0) * height as real == o.ymax as real
  {
    var a := ToYolo(o, classId, width, height);
    var W := width as real;
    var H := height as real;
    assert a.xc * W == (o.xmin + o.xmax) as real / 2.0;
    assert a.w * W == (o.xmax - o.xmin) as real;
    assert a.yc * H == (o.ymin + o.ymax) as real / 2.0;
    assert a.h * H == (o.ymax - o.ymin) as real;
  }

  /** A box strictly inside the image that is narrower and lower than the
      image converts to a valid annotation; a box spanning the full width
      or height gets size 1 and is not valid. */
  lemma ToYoloValid(o: VocObject, classId: nat, width: int, height: int)
    requires width > 0 && height > 0
    requires 0 <= o.xmin < o.xmax <= width && 0 <= o.ymin < o.ymax <= height
    ensures Valid(ToYolo(o, classId, width, height)) <==> o.xmax - o.xmin < width && o.ymax - o.ymin < height
  {
    var a := ToYolo(o, classId, width, height);
    var W := width as real;
    var H := height as real;
    assert a.xc * W == (o.xmin + o.xmax) as real / 2.0;
    assert a.w * W == (o.xmax - o.xmin) as real;
    assert a.yc * H == (o.ymin + o.ymax) as real / 2.0;
    assert a.h * H == (o.ymax - o.ymin) as real;
    Fraction((o.xmin + o.xmax) as real / 2.0, W);
    Fraction((o.xmax - o.xmin) as real, W);
    Fraction((o.ymin + o.ymax) as real / 2.0, H);
    Fraction((o.ymax - o.ymin) as real, H);
  }

  /** Where x / d falls relative to 0 and 1 is where x falls relative to 0
      and d. */
  lemma Fraction(x: real, d: real)
    requires d > 0.0
    ensures 0.0 < x / d <==> 0.0 < x
    ensures x / d < 1.0 <==> x < d
  {
    var q := x / d;
    assert q * d == x;
    assert (1.0 - q) * d == d - x;
    if q < 1.0 {
      assert (1.0 - q) * d > 0.0;
    }
    if q >= 1.0 {
      assert (q - 1.0) * d >= 0.0;
    }
  }

  /** The class names of an annotation list, in order. */
  function NamesOf(anns: seq<Annotation>): (r: seq<string>)
    ensures |r| == |anns| && forall i | 0 <= i < |r| :: r[i] == anns[i].className
  {
    seq(|anns|, i requires 0 <= i < |anns| => anns[i].className)
  }

  lemma NamesOfCons(a: Annotation, anns: seq<Annotation>)
    ensures NamesOf([a] + anns) == [a.className] + NamesOf(anns)
  {
  }

  /** The loop of `parse_xml_annotation` over the objects, with the
      statistics counters: an object whose class is not configured is
      skipped; each kept one is converted, and `total_objects` and
      `class_<name>` each go up by one. The first kept object in an image
      of width or height 0 raises ZeroDivisionError, before any counter
      moves. */
  function ParseObjects(names: seq<string>, objs: seq<VocObject>, width: int, height: int, stats: Tallies)
    : (r: Result<(seq<Annotation>, Tallies)>)
    ensures r.Failure? <==> (width == 0 || height == 0) && exists i | 0 <= i < |objs| :: objs[i].name in names
    ensures r.Success? ==> |r.value.0| <= |objs|
    ensures r.Success? ==> forall i | 0 <= i < |r.value.0| ::
              0 <= r.value.0[i].classId < |names| && names[r.value.0[i].classId] == r.value.0[i].className
    decreases |objs|
  {
    if objs == [] then Success(([], stats))
    else
      var o := objs[0];
      var rest := ParseObjects(names, objs[1..], width, height, stats);
      assert forall i | 1 <= i < |objs| :: objs[i] == objs[1..][i - 1];
      match ClassToId(names, o.name)
      case None => rest
      case Some(id) =>
        if width == 0 || height == 0 then Failure("ZeroDivisionError")
        else
          (match rest
           case Failure(e) => Failure(e)
           case Success((anns, st)) =>
             var a := ToYolo(o, id, width, height);
             var r := [a] + anns;
             assert forall i | 1 <= i < |r| :: r[i] == anns[i - 1];
             Success((r, Add(Add(st, "total_objects", 1), "class_" + o.name, 1))))
  }

  /** One turn of the object loop: an unknown object changes nothing, a
      known one puts its box in front and bumps its two counters. */
  lemma ParseStep(names: seq<string>, objs: seq<VocObject>, width: int, height: int, stats: Tallies)
    requires objs != [] && ParseObjects(names, objs, width, height, stats).Success?
    ensures ParseObjects(names, objs[1..], width, height, stats).Success?
    ensures ClassToId(names, objs[0].name).None? ==>
              ParseObjects(names, objs, width, height, stats) == ParseObjects(names, objs[1..], width, height, stats)
    ensures ClassToId(names, objs[0].name).Some? ==>
              width != 0 && height != 0 &&
              var (anns, st) := ParseObjects(names, objs[1..], width, height, stats).value;
              ParseObjects(names, objs, width, height, stats).value ==
                ([ToYolo(objs[0], ClassToId(names, objs[0].name).value, width, height)] + anns,
                 Add(Add(st, "total_objects", 1), "class_" + objs[0].name, 1))
  {
  }

  /** The two counter bumps of one kept object. */
  lemma StepCounts(st: Tallies, name: string, n: string, other: string)
    requires other != "total_objects" && (|other| < 6 || other[..6] != "class_")
    ensures var st2 := Add(Add(st, "total_objects", 1), "class_" + name, 1);
            && Get(st2, "total_objects") == Get(st, "total_objects") + 1
            && Get(st2, "class_" + n) == Get(st, "class_" + n) + (if name == n then 1 else 0)
            && Get(st2, other) == Get(st, other)
  {
    ClassKey(name, n, other);
    ClassKey(n, n, other);
  }

  /** The statistics move by exactly what was returned: `total_objects` by
      the number of annotations, `class_<n>` by how many of them are of
      class n, and no other counter changes. */
  lemma {:induction false} ParseObjectsCounts(names: seq<string>, objs: seq<VocObject>, width: int, height: int,
                                              stats: Tallies, n: string, other: string)
    requires ParseObjects(names, objs, width, height, stats).Success?
    requires other != "total_objects" && (|other| < 6 || other[..6] != "class_")
    ensures var (anns, st) := ParseObjects(names, objs, width, height, stats).value;
            && Get(st, "total_objects") == Get(stats, "total_objects") + |anns|
            && Get(st, "class_" + n) == Get(stats, "class_" + n) + Occurrences(NamesOf(anns), n)
            && Get(st, other) == Get(stats, other)
    decreases |objs|
  {
    if objs != [] {
      ParseStep(names, objs, width, height, stats);
      ParseObjectsCounts(names, objs[1..], width, height, stats, n, other);
      var o := objs[0];
      if ClassToId(names, o.name).Some? {
        var (anns, st) := ParseObjects(names, objs[1..], width, height, stats).value;
        var a := ToYolo(o, ClassToId(names, o.name).value, width, height);
        StepCounts(st, o.name, n, other);
        NamesOfCons(a, anns);
        OccurrencesCons(o.name, NamesOf(anns), n);
      }
    }
  }

  /** The statistics keys of different classes differ from each other, from
      `total_objects`, and from any key outside the `class_` family. */
  lemma ClassKey(a: string, b: string, other: string)
    requires other != "total_objects" && (|other| < 6 || other[..6] != "class_")
    ensures "class_" + a == "class_" + b <==> a == b
    ensures "class_" + a != "total_objects" && "class_" + a != other
  {
    assert ("class_" + a)[0] == 'c';
    assert ("class_" + a)[..6] == "class_";
    if "class_" + a == "class_" + b {
      assert a == ("class_" + a)[6..] == ("class_" + b)[6..] == b;
    }
  }

  /** `parse_xml_annotation` on a parsed document. */
  function ParseXmlAnnotation(names: seq<string>, doc: VocDocument, stats: Tallies)
    : (r: Result<(seq<Annotation>, Tallies)>)
    ensures r.Failure? <==>
              (doc.width == 0 || doc.height == 0) && exists i | 0 <= i < |doc.objects| :: doc.objects[i].name in names
    ensures r.Success? ==> |r.value.0| == |Filter(doc.objects, (o: VocObject) => o.name in names)|
  {
    var r := ParseObjects(names, doc.objects, doc.width, doc.height, stats);
    if r.Failure? then r
    else
      ParseKeepsKnown(names, doc.objects, doc.width, doc.height, stats);
      r
  }

  /** Exactly the objects with a configured class name are kept. */
  lemma {:induction false} ParseKeepsKnown(names: seq<string>, objs: seq<VocObject>, width: int, height: int,
                                           stats: Tallies)
    requires ParseObjects(names, objs, width, height, stats).Success?
    ensures |ParseObjects(names, objs, width, height, stats).value.0|
            == |Filter(objs, (o: VocObject) => o.name in names)|
    decreases |objs|
  {
    if objs != [] {
      ParseKeepsKnown(names, objs[1..], width, height, stats);
    }
  }

  // ---------------------------------------------------------------------
  // Train / val / test split

  datatype Split = Split(train: seq<string>, val: seq<string>, test: seq<string>)

  /** The three slices `files[:t]`, `files[t:t+v]`, `files[t+v:]`, with
      Python's clamping of out-of-range bounds. */
  function SplitAt(files: seq<string>, t: nat, v: nat): (s: Split)
    ensures s.train + s.val + s.test == files
    ensures t + v <= |files| ==> |s.train| == t && |s.val| == v && |s.test| == |files| - t - v
  {
    var train := Slice(files, 0, t);
    var val := Slice(files, t, t + v);
    var test := From(files, t + v);
    assert train + val + test == files by {
      if t >= |files| {
        assert train == files && val == [] && test == [];
      } else if t + v >= |files| {
        assert train == files[..t] && val == files[t..] && test == [];
        assert files[..t] + files[t..] == files;
      } else {
        assert files[..t] + files[t..t + v] + files[t + v..] == files;
      }
    }
    Split(train, val, test)
  }

  /** The parts are disjoint when the file names are distinct. */
  lemma SplitDisjoint(files: seq<string>, t: nat, v: nat)
    requires Distinct(files)
    ensures var s := SplitAt(files, t, v);
            && (forall f | f in s.train :: f !in s.val && f !in s.test)
            && (forall f | f in s.val :: f !in s.test)
  {
    var s := SplitAt(files, t, v);
    var a := |s.train|;
    var b := |s.train| + |s.val|;
    assert forall i | 0 <= i < |s.train| :: s.train[i] == files[i];
    assert forall i | 0 <= i < |s.val| :: s.val[i] == files[a + i];
    assert forall i | 0 <= i < |s.test| :: s.test[i] == files[b + i];
  }

  /** `split_dataset` on the shuffled image list: train gets
      `int(n * 0.7)` files, val `int(n * 0.2)`, test the rest. With no files
      the percentage report divides by zero. */
  function SplitDataset(files: seq<string>): (r: Result<Split>)
    ensures r.Failure? <==> files == []
    ensures r.Success? ==> r.value.train + r.value.val + r.value.test == files
    ensures r.Success? ==> |r.value.train| as real <= |files| as real * 0.7 < |r.value.train| as real + 1.0
    ensures r.Success? ==> |r.value.val| as real <= |files| as real * 0.2 < |r.value.val| as real + 1.0
    ensures r.Success? ==> |r.value.test| >= 1
  {
    if files == [] then Failure("ZeroDivisionError")
    else
      var n := |files|;
      var t := Trunc(n as real * 0.7);
      var v := Trunc(n as real * 0.2);
      Success(SplitAt(files, t, v))
  }

  // ---------------------------------------------------------------------
  // Label files and their analysis

  /** The five fields of one label line: class id, then the four box
      numbers with six decimals. */
  function LabelFields(a: Annotation): (fs: seq<string>)
    ensures |fs| == 5 && forall i | 0 <= i < 5 :: fs[i] != [] && NoSpace(fs[i])
  {
    IntToStringNoSpace(a.classId);
    [IntToString(a.classId), Fixed6(a.xc), Fixed6(a.yc), Fixed6(a.w), Fixed6(a.h)]
  }

  /** One written line, `f"{class_id} {x:.6f} {y:.6f} {w:.6f} {h:.6f}"`
      (the trailing newline ends the line). */
  function LabelLine(a: Annotation): string
  {
    Join(LabelFields(a), ' ')
  }

  /** A label file: one line per annotation, in order. */
  function LabelFile(anns: seq<Annotation>): (lines: seq<string>)
    ensures |lines| == |anns|
  {
    seq(|anns|, i requires 0 <= i < |anns| => LabelLine(anns[i]))
  }

  /** Reading a written line back with `line.strip().split()` gives five
      fields, the first of which `int()` turns back into the class id. */
  lemma LabelLineReadsBack(a: Annotation)
    ensures |Words(LabelLine(a))| == 5
    ensures ParseInt(Words(LabelLine(a))[0]) == Some(a.classId)
  {
    WordsJoin(LabelFields(a));
    ParseIntToString(a.classId);
  }

  /** `class_names[class_id]` with Python's negative indexing; IndexError
      outside [-len, len). */
  function PyIndex(names: seq<string>, i: int): (r: Result<string>)
    ensures r.Success? <==> -|names| <= i < |names|
    ensures 0 <= i < |names| ==> r == Success(names[i])
  {
    if 0 <= i < |names| then Success(names[i])
    else if -|names| <= i < 0 then Success(names[|names| + i])
    else Failure("IndexError")
  }

  datatype SplitInfo = SplitInfo(imageCount: nat, objectCount: nat, distribution: Tallies)

  /** The line loop of `analyze_dataset` over one label file: lines with
      at least five fields count as one object of class
      `class_names[int(fields[0])]`; shorter lines are ignored. */
  function AnalyzeLines(names: seq<string>, lines: seq<string>, count: nat, dist: Tallies)
    : (r: Result<(nat, Tallies)>)
    ensures r.Success? ==> r.value.0 >= count
    ensures r.Success? ==> Total(r.value.1) - Total(dist) == r.value.0 - count
    decreases |lines|
  {
    if lines == [] then Success((count, dist))
    else
      var parts := Words(lines[0]);
      if |parts| < 5 then AnalyzeLines(names, lines[1..], count, dist)
      else
        match ParseInt(parts[0])
        case None => Failure("ValueError")
        case Some(id) =>
          match PyIndex(names, id)
          case Failure(e) => Failure(e)
          case Success(name) => AnalyzeLines(names, lines[1..], count + 1, Add(dist, name, 1))
  }

  /** `line` has at least five fields and its first names class `name`. */
  predicate ReadsAs(names: seq<string>, line: string, name: string)
  {
    var parts := Words(line);
    |parts| >= 5 && ParseInt(parts[0]).Some? && PyIndex(names, ParseInt(parts[0]).value) == Success(name)
  }

  /** Each line reads back as the class at the same position. */
  predicate AllReadAs(names: seq<string>, lines: seq<string>, classes: seq<string>)
  {
    |lines| == |classes| && forall i | 0 <= i < |lines| :: ReadsAs(names, lines[i], classes[i])
  }

  /** Lines that each read back as a class count once each, under their
      class. */
  lemma {:induction false} AnalyzeReadableLines(names: seq<string>, lines: seq<string>, classes: seq<string>,
                                                count: nat, dist: Tallies)
    requires AllReadAs(names, lines, classes)
    ensures AnalyzeLines(names, lines, count, dist) == Success((count + |lines|, Tally(dist, classes)))
    decreases |lines|
  {
    if lines != [] {
      var next := Add(dist, classes[0], 1);
      AnalyzeReadableLine(names, lines, classes[0], count, dist);
      var restLines, restClasses := lines[1..], classes[1..];
      assert forall i | 0 <= i < |restLines| :: restLines[i] == lines[i + 1] && restClasses[i] == classes[i + 1];
      AnalyzeReadableLines(names, restLines, restClasses, count + 1, next);
      assert Tally(dist, classes) == Tally(next, restClasses);
    }
  }

  /** A first line that reads as a class counts once, under that class. */
  lemma AnalyzeReadableLine(names: seq<string>, lines: seq<string>, name: string, count: nat, dist: Tallies)
    requires lines != [] && ReadsAs(names, lines[0], name)
    ensures AnalyzeLines(names, lines, count, dist) == AnalyzeLines(names, lines[1..], count + 1, Add(dist, name, 1))
  {
  }

  /** Each written line reads back as its annotation's class when the id
      indexes the class names. */
  lemma WrittenLineReadsAs(names: seq<string>, a: Annotation)
    requires 0 <= a.classId < |names| && names[a.classId] == a.className
    ensures ReadsAs(names, LabelLine(a), a.className)
  {
    LabelLineReadsBack(a);
  }

  /** Every line of a written label file reads back as its annotation's
      class. */
  lemma WrittenLinesReadAs(names: seq<string>, anns: seq<Annotation>)
    requires forall i | 0 <= i < |anns| ::
               0 <= anns[i].classId < |names| && names[anns[i].classId] == anns[i].className
    ensures AllReadAs(names, LabelFile(anns), NamesOf(anns))
  {
    var lines := LabelFile(anns);
    var classes := NamesOf(anns);
    forall i | 0 <= i < |anns| ensures ReadsAs(names, lines[i], classes[i]) {
      assert lines[i] == LabelLine(anns[i]) && classes[i] == anns[i].className;
      WrittenLineReadsAs(names, anns[i]);
    }
  }

  /** Analysing a label file written from annotations whose ids index the
      class names counts every annotation once, under its own class. */
  lemma AnalyzeWrittenLabels(names: seq<string>, anns: seq<Annotation>, count: nat, dist: Tallies)
    requires forall i | 0 <= i < |anns| ::
               0 <= anns[i].classId < |names| && names[anns[i].classId] == anns[i].className
    ensures AnalyzeLines(names, LabelFile(anns), count, dist) == Success((count + |anns|, Tally(dist, NamesOf(anns))))
  {
    WrittenLinesReadAs(names, anns);
    AnalyzeReadableLines(names, LabelFile(anns), NamesOf(anns), count, dist);
  }

  /** The per-image loop of one split: every image counts; an image whose
      label file is missing (None) contributes no objects. */
  function AnalyzeImages(names: seq<string>, labels: seq<Option<seq<string>>>, count: nat, dist: Tallies)
    : (r: Result<(nat, Tallies)>)
    ensures r.Success? ==> r.value.0 >= count
    ensures r.Success? ==> Total(r.value.1) - Total(dist) == r.value.0 - count
    decreases |labels|
  {
    if labels == [] then Success((count, dist))
    else
      match labels[0]
      case None => AnalyzeImages(names, labels[1..], count, dist)
      case Some(lines) =>
        match AnalyzeLines(names, lines, count, dist)
        case Failure(e) => Failure(e)
        case Success((c, d)) => AnalyzeImages(names, labels[1..], c, d)
  }

  /** One split's `split_info`: its class distribution adds up to its object
      count. */
  function AnalyzeSplit(names: seq<string>, labels: seq<Option<seq<string>>>): (r: Result<SplitInfo>)
    ensures r.Success? ==> r.value.imageCount == |labels|
    ensures r.Success? ==> Total(r.value.distribution) == r.value.objectCount
  {
    match AnalyzeImages(names, labels, 0, [])
    case Failure(e) => Failure(e)
    case Success((c, d)) => Success(SplitInfo(|labels|, c, d))
  }

  datatype Analysis = Analysis(totalImages: nat, totalObjects: nat, distribution: Tallies,
                               splits: seq<(string, SplitInfo)>)

  function SumImages(splits: seq<(string, SplitInfo)>): nat
  {
    if splits == [] then 0 else splits[0].1.imageCount + SumImages(splits[1..])
  }

  function SumObjects(splits: seq<(string, SplitInfo)>): nat
  {
    if splits == [] then 0 else splits[0].1.objectCount + SumObjects(splits[1..])
  }

  /** The split loop of `analyze_dataset` from `acc` on: a split whose
      directory is missing (None) is skipped; the others add their counts
      and their distribution. */
  function AnalyzeSplits(names: seq<string>, splitNames: seq<string>, dirs: seq<Option<seq<Option<seq<string>>>>>,
                         acc: Analysis): (r: Result<Analysis>)
    requires |splitNames| == |dirs|
    requires acc.totalImages == SumImages(acc.splits) && acc.totalObjects == SumObjects(acc.splits)
    requires Total(acc.distribution) == acc.totalObjects
    ensures r.Success? ==> r.value.totalImages == SumImages(r.value.splits)
    ensures r.Success? ==> r.value.totalObjects == SumObjects(r.value.splits)
    ensures r.Success? ==> Total(r.value.distribution) == r.value.totalObjects
    decreases |dirs|
  {
    if dirs == [] then Success(acc)
    else
      match dirs[0]
      case None => AnalyzeSplits(names, splitNames[1..], dirs[1..], acc)
      case Some(labels) =>
        match AnalyzeSplit(names, labels)
        case Failure(e) => Failure(e)
        case Success(info) =>
          var splits := acc.splits + [(splitNames[0], info)];
          SumsAppend(acc.splits, (splitNames[0], info));
          AnalyzeSplits(names, splitNames[1..], dirs[1..],
            Analysis(acc.totalImages + info.imageCount, acc.totalObjects + info.objectCount,
                     Update(acc.distribution, info.distribution), splits))
  }

  lemma {:induction false} SumsAppend(splits: seq<(string, SplitInfo)>, s: (string, SplitInfo))
    ensures SumImages(splits + [s]) == SumImages(splits) + s.1.imageCount
    ensures SumObjects(splits + [s]) == SumObjects(splits) + s.1.objectCount
    decreases |splits|
  {
    if splits != [] {
      SumsAppend(splits[1..], s);
      assert (splits + [s])[1..] == splits[1..] + [s];
    } else {
      assert [] + [s] == [s];
    }
  }

  /** `analyze_dataset` over the train, val and test directories: the
      totals are the sums over the splits that exist, and the overall
      class distribution adds up to the total object count. */
  function AnalyzeDataset(names: seq<string>, train: Option<seq<Option<seq<string>>>>,
                          val: Option<seq<Option<seq<string>>>>, test: Option<seq<Option<seq<string>>>>)
    : (r: Result<Analysis>)
    ensures r.Success? ==> r.value.totalImages == SumImages(r.value.splits)
    ensures r.Success? ==> r.value.totalObjects == SumObjects(r.value.splits)
    ensures r.Success? ==> Total(r.value.distribution) == r.value.totalObjects
  {
    AnalyzeSplits(names, ["train", "val", "test"], [train, val, test], Analysis(0, 0, [], []))
  }

  // ---------------------------------------------------------------------
  // Dataset description

  /** The `dataset.yaml` document `create_dataset_yaml` writes. */
  function DatasetYaml(path: string, names: seq<string>): (d: seq<Entry>)
    ensures Lookup(d, "nc") == Some(Int(|names|))
    ensures Lookup(d, "names").Some? && Lookup(d, "names").value.List?
    ensures var items := Lookup(d, "names").value.items;
            |items| == |names| && forall i | 0 <= i < |names| :: items[i] == Str(names[i])
  {
    var items := seq(|names|, i requires 0 <= i < |names| => Str(names[i]));
    var head := SplitPaths(path);
    var tail := [Entry("nc", Int(|names|)), Entry("names", List(items))];
    LookupPast(head, tail, "nc");
    LookupPast(head, tail, "names");
    assert |"nc"| != |"names"|;
    head + tail
  }

  /** The four path entries at the top of the dataset description, none of
      which is "nc" or "names". */
  function SplitPaths(path: string): (h: seq<Entry>)
    ensures |h| == 4
    ensures forall i | 0 <= i < 4 :: h[i].key != "nc" && h[i].key != "names"
  {
    assert |"path"| == 4 && |"val"| == 3 && |"test"| == 4 && |"train"| == 5;
    assert "train"[0] != "names"[0];
    [Entry("path", Str(path)), Entry("train", Str("train/images")), Entry("val", Str("val/images")),
     Entry("test", Str("test/images"))]
  }
}
