/** The annotation side of the data augmentor: the recursive configuration
    merge, the geometric transforms on YOLO boxes (normalised centre and
    size), the validity filter, the coin flips that decide which transform
    runs, and the bookkeeping of the augmented pairs. Pixels are not
    modelled; random draws are parameters. */
module DataAugmentor {
  import opened Wrappers
  import opened ConfigValue
  import opened Sequences

  // ---------------------------------------------------------------------
  // Configuration merge

  /** What `_merge_config` stores under a key given the base's current
      value (if any) and the user's value: two dictionaries merge
      recursively, anything else is overwritten by the user's value. */
  function Combine(b: Option<Value>, u: Value): (r: Value)
    ensures !(b.Some? && b.value.Dict? && u.Dict?) ==> r == u
    ensures b.Some? && b.value.Dict? && u.Dict? ==>
              r.Dict? && Keys(r.entries) == Keys(b.value.entries) + Keys(u.entries)
    decreases u, 1
  {
    match (b, u)
    case (Some(Dict(be)), Dict(ue)) => Dict(MergeConfig(be, ue))
    case _ => u
  }

  /** `_merge_config(base, user)`, applied to the user's entries in order;
      the result is the updated base. */
  function MergeConfig(base: seq<Entry>, user: seq<Entry>): (r: seq<Entry>)
    ensures Keys(r) == Keys(base) + Keys(user)
    decreases user, 0
  {
    if user == [] then base
    else
      var e := user[0];
      assert e in user;
      var r := MergeConfig(Set(base, e.key, Combine(Lookup(base, e.key), e.value)), user[1..]);
      assert Keys(user) == {e.key} + Keys(user[1..]);
      r
  }

  /** After the merge, a key the user set reads back as the user's value
      merged into the base's, and any other key reads back the base's
      value unchanged. */
  lemma {:induction false} MergeLookup(base: seq<Entry>, user: seq<Entry>, k: string)
    requires UniqueKeys(user)
    ensures k in Keys(user) ==>
              Lookup(MergeConfig(base, user), k) == Some(Combine(Lookup(base, k), Lookup(user, k).value))
    ensures k !in Keys(user) ==> Lookup(MergeConfig(base, user), k) == Lookup(base, k)
    decreases |user|
  {
    if user != [] {
      var e := user[0];
      var base' := Set(base, e.key, Combine(Lookup(base, e.key), e.value));
      MergeLookup(base', user[1..], k);
      SetLookup(base, e.key, Combine(Lookup(base, e.key), e.value), k);
    }
  }

  /** The merge keeps the base's keys unique. */
  lemma {:induction false} MergeUnique(base: seq<Entry>, user: seq<Entry>)
    requires UniqueKeys(base)
    ensures UniqueKeys(MergeConfig(base, user))
    decreases |user|
  {
    if user != [] {
      var e := user[0];
      SetUnique(base, e.key, Combine(Lookup(base, e.key), e.value));
      MergeUnique(Set(base, e.key, Combine(Lookup(base, e.key), e.value)), user[1..]);
    }
  }

  /** One step of the merge when the user's first key is new to the
      base: the entry is appended as it is. */
  lemma FreshStep(base: seq<Entry>, user: seq<Entry>)
    requires user != [] && UniqueKeys(user)
    requires Keys(base) !! Keys(user)
    ensures MergeConfig(base, user) == MergeConfig(base + [user[0]], user[1..])
    ensures UniqueKeys(user[1..]) && Keys(base + [user[0]]) !! Keys(user[1..])
  {
    var e := user[0];
    assert Keys(user) == {e.key} + Keys(user[1..]);
    SetNewKey(base, e.key, e.value);
    KeysAppend(base, e);
  }

  /** User keys the base does not have are appended in the user's order,
      after the base's own entries. */
  lemma {:induction false} MergeFreshKeys(base: seq<Entry>, user: seq<Entry>)
    requires UniqueKeys(user)
    requires Keys(base) !! Keys(user)
    ensures MergeConfig(base, user) == base + user
    decreases |user|
  {
    if user != [] {
      var next := base + [user[0]];
      var rest := user[1..];
      FreshStep(base, user);
      MergeFreshKeys(next, rest);
      AppendShift(base, user);
    }
  }

  /** Moving the head of `user` onto the end of `base` keeps the
      concatenation. */
  lemma AppendShift(base: seq<Entry>, user: seq<Entry>)
    requires user != []
    ensures (base + [user[0]]) + user[1..] == base + user
  {
    assert user == [user[0]] + user[1..];
  }

  // ---------------------------------------------------------------------
  // YOLO annotations

  /** One annotation: class, and a box as normalised centre and size. */
  datatype Annotation = Annotation(classId: int, className: string, xc: real, yc: real, w: real, h: real)

  /** The box still overlaps the unit square, the test the translation and
      the enlarging scale use to decide whether to keep it. */
  predicate Overlaps(a: Annotation)
  {
    a.xc - a.w / 2.0 < 1.0 && a.xc + a.w / 2.0 > 0.0 &&
    a.yc - a.h / 2.0 < 1.0 && a.yc + a.h / 2.0 > 0.0
  }

  /** All four numbers lie strictly between 0 and 1. */
  predicate Valid(a: Annotation)
  {
    0.0 < a.xc < 1.0 && 0.0 < a.yc < 1.0 && 0.0 < a.w < 1.0 && 0.0 < a.h < 1.0
  }

  /** A valid box lies inside the unit square, so it overlaps it. */
  lemma ValidOverlaps(a: Annotation)
    requires Valid(a)
    ensures Overlaps(a)
  {
  }

  function FlipX(a: Annotation): Annotation { a.(xc := 1.0 - a.xc) }

  function FlipY(a: Annotation): Annotation { a.(yc := 1.0 - a.yc) }

  /** `_apply_horizontal_flip` on the annotations: mirrors every centre
      across x = 0.5, keeping everything else and the count; validity is
      kept too. */
  function HorizontalFlip(anns: seq<Annotation>): (r: seq<Annotation>)
    ensures |r| == |anns|
    ensures forall i | 0 <= i < |r| ::
              r[i].xc + anns[i].xc == 1.0 &&
              r[i].(xc := anns[i].xc) == anns[i] &&
              (Valid(anns[i]) <==> Valid(r[i]))
  {
    seq(|anns|, i requires 0 <= i < |anns| => FlipX(anns[i]))
  }

  /** `_apply_vertical_flip` on the annotations: the same across y = 0.5. */
  function VerticalFlip(anns: seq<Annotation>): (r: seq<Annotation>)
    ensures |r| == |anns|
    ensures forall i | 0 <= i < |r| ::
              r[i].yc + anns[i].yc == 1.0 &&
              r[i].(yc := anns[i].yc) == anns[i] &&
              (Valid(anns[i]) <==> Valid(r[i]))
  {
    seq(|anns|, i requires 0 <= i < |anns| => FlipY(anns[i]))
  }

  /** Each flip undoes itself. */
  lemma FlipsAreInvolutions(anns: seq<Annotation>)
    ensures HorizontalFlip(HorizontalFlip(anns)) == anns
    ensures VerticalFlip(VerticalFlip(anns)) == anns
  {
    var hh := HorizontalFlip(HorizontalFlip(anns));
    assert forall i | 0 <= i < |anns| :: hh[i] == anns[i];
    var vv := VerticalFlip(VerticalFlip(anns));
    assert forall i | 0 <= i < |anns| :: vv[i] == anns[i];
  }

  /** The two flips commute. */
  lemma FlipsCommute(anns: seq<Annotation>)
    ensures HorizontalFlip(VerticalFlip(anns)) == VerticalFlip(HorizontalFlip(anns))
  {
    var hv := HorizontalFlip(VerticalFlip(anns));
    var vh := VerticalFlip(HorizontalFlip(anns));
    assert forall i | 0 <= i < |anns| :: hv[i] == vh[i];
  }

  function Shift(a: Annotation, dx: real, dy: real): Annotation
  {
    a.(xc := a.xc + dx, yc := a.yc + dy)
  }

  /** Every annotation shifted, before any is dropped. */
  function ShiftAll(anns: seq<Annotation>, dx: real, dy: real): (r: seq<Annotation>)
    ensures |r| == |anns|
    ensures forall i | 0 <= i < |r| :: r[i] == Shift(anns[i], dx, dy)
  {
    seq(|anns|, i requires 0 <= i < |anns| => Shift(anns[i], dx, dy))
  }

  /** `_apply_translation` on the annotations, as the loop writes it: each
      box moves by (dx, dy) with its size unchanged, and survives only if
      it still overlaps the image. The result is the shifted list with the
      boxes that left the image removed, in order. */
  function Translate(anns: seq<Annotation>, dx: real, dy: real): (r: seq<Annotation>)
    ensures r == Filter(ShiftAll(anns, dx, dy), Overlaps)
    decreases |anns|
  {
    if anns == [] then []
    else
      var a := Shift(anns[0], dx, dy);
      var rest := Translate(anns[1..], dx, dy);
      assert ShiftAll(anns, dx, dy)[1..] == ShiftAll(anns[1..], dx, dy);
      if a.xc - anns[0].w / 2.0 < 1.0 && a.xc + anns[0].w / 2.0 > 0.0 &&
         a.yc - anns[0].h / 2.0 < 1.0 && a.yc + anns[0].h / 2.0 > 0.0
      then [a] + rest
      else rest
  }

  /** What the translation keeps: sizes and classes unchanged, centres
      moved by exactly (dx, dy), every kept box overlapping the image, every
      box that still overlaps kept, and the original order preserved. */
  lemma TranslateMeaning(anns: seq<Annotation>, dx: real, dy: real)
    ensures |Translate(anns, dx, dy)| <= |anns|
    ensures forall i | 0 <= i < |Translate(anns, dx, dy)| ::
              Overlaps(Translate(anns, dx, dy)[i]) &&
              exists j | 0 <= j < |anns| :: Translate(anns, dx, dy)[i] == Shift(anns[j], dx, dy)
    ensures forall j | 0 <= j < |anns| && Overlaps(Shift(anns[j], dx, dy)) ::
              Shift(anns[j], dx, dy) in Translate(anns, dx, dy)
    ensures Subsequence(Translate(anns, dx, dy), ShiftAll(anns, dx, dy))
  {
    var shifted := ShiftAll(anns, dx, dy);
    FilterSubsequence(shifted, Overlaps);
    forall i | 0 <= i < |Translate(anns, dx, dy)|
      ensures exists j | 0 <= j < |anns| :: Translate(anns, dx, dy)[i] == Shift(anns[j], dx, dy)
    {
      var j :| 0 <= j < |shifted| && shifted[j] == Translate(anns, dx, dy)[i];
      assert Translate(anns, dx, dy)[i] == Shift(anns[j], dx, dy);
    }
    forall j | 0 <= j < |anns| && Overlaps(Shift(anns[j], dx, dy))
      ensures Shift(anns[j], dx, dy) in Translate(anns, dx, dy)
    {
      assert shifted[j] == Shift(anns[j], dx, dy);
    }
  }

  /** Translating by zero only drops the boxes that do not overlap the
      image; in particular a list of valid boxes comes back unchanged. */
  lemma TranslateByZero(anns: seq<Annotation>)
    ensures Translate(anns, 0.0, 0.0) == Filter(anns, Overlaps)
    ensures (forall i | 0 <= i < |anns| :: Valid(anns[i])) ==> Translate(anns, 0.0, 0.0) == anns
  {
    assert ShiftAll(anns, 0.0, 0.0) == anns;
    if forall i | 0 <= i < |anns| :: Valid(anns[i]) {
      FilterKeepsAll(anns, Overlaps);
    }
  }

  /** One box under `_apply_scaling`, written per branch as the source
      does: shrinking pads the image and moves the centre by (1-s)/2,
      enlarging crops it and moves the centre back by (s-1)/2. Either way
      the box is scaled about the image centre (0.5, 0.5). */
  function ScaleBox(a: Annotation, s: real): (r: Annotation)
    ensures r.classId == a.classId && r.className == a.className
    ensures r.w == a.w * s && r.h == a.h * s
    ensures r.xc - 0.5 == (a.xc - 0.5) * s && r.yc - 0.5 == (a.yc - 0.5) * s
  {
    if s < 1.0 then
      a.(xc := a.xc * s + (1.0 - s) / 2.0, yc := a.yc * s + (1.0 - s) / 2.0, w := a.w * s, h := a.h * s)
    else
      a.(xc := a.xc * s - (s - 1.0) / 2.0, yc := a.yc * s - (s - 1.0) / 2.0, w := a.w * s, h := a.h * s)
  }

  function ScaleAll(anns: seq<Annotation>, s: real): (r: seq<Annotation>)
    ensures |r| == |anns|
    ensures forall i | 0 <= i < |r| :: r[i] == ScaleBox(anns[i], s)
  {
    seq(|anns|, i requires 0 <= i < |anns| => ScaleBox(anns[i], s))
  }

  /** The enlarging branch's loop: keep a scaled box only if it still
      overlaps the image. */
  function EnlargeKept(anns: seq<Annotation>, s: real): (r: seq<Annotation>)
    ensures r == Filter(ScaleAll(anns, s), Overlaps)
    decreases |anns|
  {
    if anns == [] then []
    else
      var b := ScaleBox(anns[0], s);
      var rest := EnlargeKept(anns[1..], s);
      assert ScaleAll(anns, s)[1..] == ScaleAll(anns[1..], s);
      if b.xc - b.w / 2.0 < 1.0 && b.xc + b.w / 2.0 > 0.0 &&
         b.yc - b.h / 2.0 < 1.0 && b.yc + b.h / 2.0 > 0.0
      then [b] + rest
      else rest
  }

  /** `_apply_scaling` on the annotations: shrinking keeps every box,
      enlarging keeps, in order, the scaled boxes that still overlap. */
  function Scale(anns: seq<Annotation>, s: real): (r: seq<Annotation>)
    ensures s < 1.0 ==> r == ScaleAll(anns, s)
    ensures s >= 1.0 ==> r == Filter(ScaleAll(anns, s), Overlaps)
  {
    if s < 1.0 then ScaleAll(anns, s) else EnlargeKept(anns, s)
  }

  /** Shrinking never pushes a valid box out of the image: for
      0 < s < 1 every valid box stays valid, so the validity filter that
      follows keeps them all. */
  lemma ShrinkKeepsValid(a: Annotation, s: real)
    requires 0.0 < s < 1.0 && Valid(a)
    ensures Valid(ScaleBox(a, s))
  {
    var r := ScaleBox(a, s);
    MulBetween(a.xc - 0.5, s);
    MulBetween(a.yc - 0.5, s);
    assert 0.0 < a.w * s < 1.0 by { MulBetween(a.w - 0.5, s); }
    assert 0.0 < a.h * s < 1.0 by { MulBetween(a.h - 0.5, s); }
  }

  /** For 0 < s < 1, x * s lies between 0 and x. */
  lemma MulBetween(x: real, s: real)
    requires 0.0 < s < 1.0
    ensures x >= 0.0 ==> 0.0 <= x * s <= x
    ensures x <= 0.0 ==> x <= x * s <= 0.0
    ensures -0.5 < x < 0.5 ==> -0.5 < x * s < 0.5
  {
  }

  /** Scaling by s and then by 1/s gives the box back, whichever branch
      each of the two calls takes. */
  lemma ScaleInverse(a: Annotation, s: real)
    requires s > 0.0
    ensures ScaleBox(ScaleBox(a, s), 1.0 / s) == a
  {
    var b := ScaleBox(a, s);
    var c := ScaleBox(b, 1.0 / s);
    assert s * (1.0 / s) == 1.0;
    assert c.w == a.w * s * (1.0 / s) == a.w;
    assert c.h == a.h * s * (1.0 / s) == a.h;
    assert c.xc - 0.5 == (a.xc - 0.5) * s * (1.0 / s) == a.xc - 0.5;
    assert c.yc - 0.5 == (a.yc - 0.5) * s * (1.0 / s) == a.yc - 0.5;
  }

  /** `_filter_valid_annotations`: keeps, in order, exactly the boxes whose
      four numbers lie in (0, 1). */
  function FilterValid(anns: seq<Annotation>): (r: seq<Annotation>)
    ensures forall i | 0 <= i < |r| :: Valid(r[i])
    ensures forall i | 0 <= i < |anns| && Valid(anns[i]) :: anns[i] in r
    ensures Subsequence(r, anns)
  {
    FilterSubsequence(anns, Valid);
    Filter(anns, Valid)
  }

  /** Filtering twice changes nothing, and an all-valid list passes
      through unchanged. */
  lemma FilterValidIdempotent(anns: seq<Annotation>)
    ensures FilterValid(FilterValid(anns)) == FilterValid(anns)
    ensures (forall i | 0 <= i < |anns| :: Valid(anns[i])) ==> FilterValid(anns) == anns
  {
    FilterIdempotent(anns, Valid);
    if forall i | 0 <= i < |anns| :: Valid(anns[i]) {
      FilterKeepsAll(anns, Valid);
    }
  }

  // ---------------------------------------------------------------------
  // Which augmentations run

  /** `_should_apply(kind)` with `roll` the value `random.random()` would
      return. A missing section counts as `{}`; a section that is not a
      dictionary raises AttributeError on `.get`; a falsy `enabled` answers
      no without a draw; otherwise the roll is compared with `probability`
      (default 0.5), which raises TypeError unless it is a number. */
  function ShouldApply(config: seq<Entry>, kind: string, roll: real): (r: Result<bool>)
    requires 0.0 <= roll < 1.0
    ensures kind !in Keys(config) ==> r == Success(false)
    ensures Lookup(config, kind).Some? && !Lookup(config, kind).value.Dict? ==> r.Failure?
    ensures r == Success(true) ==>
              && Lookup(config, kind).Some?
              && Lookup(config, kind).value.Dict?
              && Lookup(Lookup(config, kind).value.entries, "enabled").Some?
              && Truthy(Lookup(Lookup(config, kind).value.entries, "enabled").value)
  {
    match Lookup(config, kind).GetOr(Dict([]))
    case Dict(section) =>
      if !Truthy(Lookup(section, "enabled").GetOr(Bool(false))) then Success(false)
      else
        (match Lookup(section, "probability").GetOr(Num(0.5))
         case Num(p) => Success(roll < p)
         case Int(p) => Success(roll < p as real)
         case Bool(b) => Success(roll < if b then 1.0 else 0.0)
         case _ => Failure("TypeError"))
    case _ => Failure("AttributeError")
  }

  /** The draw decides an enabled augmentation exactly as its probability
      says: probability 1 or more always applies, 0 or less never does. */
  lemma ShouldApplyProbability(config: seq<Entry>, kind: string, roll: real, p: real)
    requires 0.0 <= roll < 1.0
    requires Lookup(config, kind).Some? && Lookup(config, kind).value.Dict?
    requires Lookup(Lookup(config, kind).value.entries, "enabled") == Some(Bool(true))
    requires Lookup(Lookup(config, kind).value.entries, "probability") == Some(Num(p))
    ensures p >= 1.0 ==> ShouldApply(config, kind, roll) == Success(true)
    ensures p <= 0.0 ==> ShouldApply(config, kind, roll) == Success(false)
    ensures ShouldApply(config, kind, roll) == Success(roll < p)
  {
  }

  function Section(enabled: bool, probability: real, extra: seq<Entry>): Value
  {
    Dict([Entry("enabled", Bool(enabled))] + extra + [Entry("probability", Num(probability))])
  }

  function Range(lo: real, hi: real): Value { List([Num(lo), Num(hi)]) }

  /** The augmentor's built-in configuration: five augmented copies per
      image, every augmentation on except the vertical flip. */
  const DefaultConfig: seq<Entry> := [
    Entry("augmentation_factor", Int(5)),
    Entry("rotation", Section(true, 0.7, [Entry("max_angle", Int(30))])),
    Entry("brightness", Section(true, 0.6, [Entry("factor_range", Range(0.6, 1.4))])),
    Entry("noise", Section(true, 0.4, [Entry("noise_type", Str("gaussian")), Entry("noise_factor", Num(0.1))])),
    Entry("translation", Section(true, 0.5, [Entry("max_shift", Num(0.1))])),
    Entry("scaling", Section(true, 0.5, [Entry("scale_range", Range(0.8, 1.2))])),
    Entry("horizontal_flip", Section(true, 0.5, [])),
    Entry("vertical_flip", Section(false, 0.2, [])),
    Entry("color_enhancement", Section(true, 0.5, [Entry("saturation_range", Range(0.7, 1.3)),
                                                  Entry("hue_shift_range", List([Int(-10), Int(10)]))])),
    Entry("contrast", Section(true, 0.5, [Entry("factor_range", Range(0.7, 1.3))])),
    Entry("blur", Section(true, 0.3, [Entry("kernel_size", List([Int(3), Int(7)]))])),
    Entry("sharpen", Section(true, 0.3, [Entry("strength", Num(0.5))])),
    Entry("gamma_correction", Section(true, 0.4, [Entry("gamma_range", Range(0.7, 1.3))]))
  ]

  /** The constructor: the defaults, with a truthy user configuration
      merged over them. Merging never loses a default key. */
  function InitConfig(user: seq<Entry>): (r: seq<Entry>)
    ensures Keys(DefaultConfig) <= Keys(r)
    ensures user == [] ==> r == DefaultConfig
  {
    if user != [] then MergeConfig(DefaultConfig, user) else DefaultConfig
  }

  /** A section whose `enabled` is falsy never applies, whatever the roll. */
  lemma DisabledNeverApplies(config: seq<Entry>, kind: string, roll: real, section: seq<Entry>)
    requires 0.0 <= roll < 1.0
    requires Lookup(config, kind) == Some(Dict(section))
    requires Lookup(section, "enabled").Some? && !Truthy(Lookup(section, "enabled").value)
    ensures ShouldApply(config, kind, roll) == Success(false)
  {
  }

  /** With no user configuration, the vertical flip never runs. */
  lemma DefaultNeverFlipsVertically(roll: real)
    requires 0.0 <= roll < 1.0
    ensures ShouldApply(InitConfig([]), "vertical_flip", roll) == Success(false)
  {
    var section := Section(false, 0.2, []);
    DefaultVerticalFlip();
    SectionEnabled(false, 0.2, []);
    DisabledNeverApplies(InitConfig([]), "vertical_flip", roll, section.entries);
  }

  /** A section's `enabled` flag is its first entry. */
  lemma SectionEnabled(enabled: bool, probability: real, extra: seq<Entry>)
    ensures Lookup(Section(enabled, probability, extra).entries, "enabled") == Some(Bool(enabled))
  {
    var es := Section(enabled, probability, extra).entries;
    assert es[0] == Entry("enabled", Bool(enabled));
  }

  /** The default vertical-flip section: disabled, probability 0.2. */
  lemma DefaultVerticalFlip()
    ensures Lookup(DefaultConfig, "vertical_flip") == Some(Section(false, 0.2, []))
  {
    assert forall i | 0 <= i < 7 :: |DefaultConfig[i].key| != |"vertical_flip"|;
    LookupFound(DefaultConfig, 7, "vertical_flip");
  }

  /** `range(self.config['augmentation_factor'])`: a missing key raises
      KeyError, a value that is not an integer (bool counts as one) raises
      TypeError; a negative count gives no iterations. */
  function AugmentationFactor(config: seq<Entry>): (r: Result<nat>)
    ensures Lookup(config, "augmentation_factor").None? ==> r.Failure?
    ensures Lookup(config, "augmentation_factor") == Some(Int(5)) ==> r == Success(5)
  {
    match Lookup(config, "augmentation_factor")
    case None => Failure("KeyError")
    case Some(Int(n)) => Success(if n < 0 then 0 else n)
    case Some(Bool(b)) => Success(if b then 1 else 0)
    case Some(_) => Failure("TypeError")
  }

  /** The random values one iteration draws: a roll for each
      `_should_apply` of the five augmentations that move boxes, the values
      the applied transform draws, and one roll for each of the seven
      image-only augmentations. The rotation's output annotations are
      themselves a parameter (the rotation is not modelled). */
  datatype Draws = Draws(
    rotationRoll: real, rotated: seq<Annotation>,
    scalingRoll: real, scale: real,
    translationRoll: real, dx: real, dy: real,
    hflipRoll: real, vflipRoll: real,
    imageRolls: seq<real>)

  /** The augmentations that only change pixels, in the order they run. */
  const ImageKinds: seq<string> :=
    ["brightness", "contrast", "color_enhancement", "noise", "blur", "sharpen", "gamma_correction"]

  predicate RollsInRange(d: Draws)
  {
    0.0 <= d.rotationRoll < 1.0 && 0.0 <= d.scalingRoll < 1.0 && 0.0 <= d.translationRoll < 1.0 &&
    0.0 <= d.hflipRoll < 1.0 && 0.0 <= d.vflipRoll < 1.0 &&
    |d.imageRolls| == |ImageKinds| && UnitRolls(d.imageRolls)
  }

  /** Every roll is a value `random.random()` can return. */
  predicate UnitRolls(rolls: seq<real>)
  {
    forall i | 0 <= i < |rolls| :: 0.0 <= rolls[i] < 1.0
  }

  /** One `if self._should_apply(kind): annotations = transform(...)`. */
  function Stage(config: seq<Entry>, kind: string, roll: real, prev: Result<seq<Annotation>>,
                 f: seq<Annotation> -> seq<Annotation>): (r: Result<seq<Annotation>>)
    requires 0.0 <= roll < 1.0
    ensures prev.Failure? ==> r == prev
    ensures prev.Success? && ShouldApply(config, kind, roll) == Success(false) ==> r == prev
  {
    match prev
    case Failure(e) => Failure(e)
    case Success(anns) =>
      match ShouldApply(config, kind, roll)
      case Failure(e) => Failure(e)
      case Success(apply) => Success(if apply then f(anns) else anns)
  }

  /** The image-only stages from `ImageKinds[from]` on: each asks
      `_should_apply` and leaves the annotations alone, so they can only
      raise. */
  function ImageStages(config: seq<Entry>, rolls: seq<real>, from: nat, prev: Result<seq<Annotation>>): (r: Result<seq<Annotation>>)
    requires |rolls| == |ImageKinds| && UnitRolls(rolls) && from <= |ImageKinds|
    ensures r.Success? ==> r == prev
    ensures prev.Success? && (forall i | from <= i < |ImageKinds| :: ImageKinds[i] !in Keys(config)) ==> r == prev
    decreases |ImageKinds| - from
  {
    if from == |ImageKinds| then prev
    else ImageStages(config, rolls, from + 1, Stage(config, ImageKinds[from], rolls[from], prev, a => a))
  }

  /** One iteration of the augment loop on the annotations: rotation,
      scaling, translation, the two flips, the image-only augmentations,
      then the validity filter. */
  function Iteration(config: seq<Entry>, anns: seq<Annotation>, d: Draws): (r: Result<seq<Annotation>>)
    requires RollsInRange(d)
    ensures r.Success? ==> forall i | 0 <= i < |r.value| :: Valid(r.value[i])
  {
    var rotated := Stage(config, "rotation", d.rotationRoll, Success(anns), _ => d.rotated);
    var scaled := Stage(config, "scaling", d.scalingRoll, rotated, a => Scale(a, d.scale));
    var translated := Stage(config, "translation", d.translationRoll, scaled, a => Translate(a, d.dx, d.dy));
    var hflipped := Stage(config, "horizontal_flip", d.hflipRoll, translated, HorizontalFlip);
    var vflipped := Stage(config, "vertical_flip", d.vflipRoll, hflipped, VerticalFlip);
    match ImageStages(config, d.imageRolls, 0, vflipped)
    case Failure(e) => Failure(e)
    case Success(a) => Success(FilterValid(a))
  }

  /** Every list is non-empty and holds only valid boxes. */
  predicate AllNonEmptyValid(lists: seq<seq<Annotation>>)
  {
    forall i | 0 <= i < |lists| :: lists[i] != [] && forall j | 0 <= j < |lists[i]| :: Valid(lists[i][j])
  }

  /** Putting a non-empty valid list (or nothing) in front keeps every
      list non-empty and valid. */
  lemma PrependValid(a: seq<Annotation>, rest: seq<seq<Annotation>>)
    requires forall j | 0 <= j < |a| :: Valid(a[j])
    requires AllNonEmptyValid(rest)
    ensures AllNonEmptyValid((if a != [] then [a] else []) + rest)
  {
    var r := (if a != [] then [a] else []) + rest;
    if a != [] {
      assert forall i | 1 <= i < |r| :: r[i] == rest[i - 1];
    } else {
      assert r == rest;
    }
  }

  /** The annotation lists the iterations append, in order: only the
      non-empty ones. The first failing iteration's exception ends the
      call. */
  function AugmentLoop(config: seq<Entry>, anns: seq<Annotation>, ds: seq<Draws>): (r: Result<seq<seq<Annotation>>>)
    requires forall i | 0 <= i < |ds| :: RollsInRange(ds[i])
    ensures r.Success? ==> |r.value| <= |ds|
    ensures r.Success? ==> AllNonEmptyValid(r.value)
    decreases |ds|
  {
    if ds == [] then Success([])
    else
      match Iteration(config, anns, ds[0])
      case Failure(e) => Failure(e)
      case Success(a) =>
        match AugmentLoop(config, anns, ds[1..])
        case Failure(e) => Failure(e)
        case Success(rest) =>
          PrependValid(a, rest);
          Success((if a != [] then [a] else []) + rest)
  }

  /** `augment_image_with_annotations` on the annotations: the original
      list first, then at most `augmentation_factor` augmented lists, each
      non-empty and fully valid. `draws[i]` holds iteration i's random
      values. */
  function Augment(config: seq<Entry>, anns: seq<Annotation>, draws: seq<Draws>): (r: Result<seq<seq<Annotation>>>)
    requires forall i | 0 <= i < |draws| :: RollsInRange(draws[i])
    requires AugmentationFactor(config).Success? ==> |draws| >= AugmentationFactor(config).value
    ensures AugmentationFactor(config).Failure? ==> r.Failure?
    ensures r.Success? ==> r.value != [] && r.value[0] == anns
    ensures r.Success? ==> |r.value| <= 1 + AugmentationFactor(config).value
    ensures r.Success? ==> AllNonEmptyValid(r.value[1..])
  {
    match AugmentationFactor(config)
    case Failure(e) => Failure(e)
    case Success(n) =>
      match AugmentLoop(config, anns, draws[..n])
      case Failure(e) => Failure(e)
      case Success(augmented) =>
        var r := [anns] + augmented;
        assert r[1..] == augmented;
        Success(r)
  }

  /** No augmentation section present: every iteration only filters, so
      the result is the original followed by one copy of its valid boxes
      per iteration, or by nothing if no box is valid. */
  lemma {:induction false} LoopWithoutTransforms(config: seq<Entry>, anns: seq<Annotation>, ds: seq<Draws>)
    requires forall i | 0 <= i < |ds| :: RollsInRange(ds[i])
    requires "rotation" !in Keys(config) && "scaling" !in Keys(config) && "translation" !in Keys(config)
    requires "horizontal_flip" !in Keys(config) && "vertical_flip" !in Keys(config)
    requires forall i | 0 <= i < |ImageKinds| :: ImageKinds[i] !in Keys(config)
    ensures FilterValid(anns) != [] ==> AugmentLoop(config, anns, ds) == Success(Repeat(FilterValid(anns), |ds|))
    ensures FilterValid(anns) == [] ==> AugmentLoop(config, anns, ds) == Success([])
    decreases |ds|
  {
    if ds != [] {
      var v := FilterValid(anns);
      IterationWithoutTransforms(config, anns, ds[0]);
      LoopWithoutTransforms(config, anns, ds[1..]);
      AugmentLoopStep(config, anns, ds, v);
      if v != [] {
        assert Repeat(v, |ds|) == [v] + Repeat(v, |ds| - 1);
      }
    }
  }

  /** The loop is its first iteration's list, when non-empty, in front of
      the rest. */
  lemma AugmentLoopStep(config: seq<Entry>, anns: seq<Annotation>, ds: seq<Draws>, a: seq<Annotation>)
    requires forall i | 0 <= i < |ds| :: RollsInRange(ds[i])
    requires ds != [] && Iteration(config, anns, ds[0]) == Success(a)
    requires AugmentLoop(config, anns, ds[1..]).Success?
    ensures AugmentLoop(config, anns, ds) == Success((if a != [] then [a] else []) + AugmentLoop(config, anns, ds[1..]).value)
  {
  }

  /** One iteration with no augmentation section present only filters. */
  lemma IterationWithoutTransforms(config: seq<Entry>, anns: seq<Annotation>, d: Draws)
    requires RollsInRange(d)
    requires "rotation" !in Keys(config) && "scaling" !in Keys(config) && "translation" !in Keys(config)
    requires "horizontal_flip" !in Keys(config) && "vertical_flip" !in Keys(config)
    requires forall i | 0 <= i < |ImageKinds| :: ImageKinds[i] !in Keys(config)
    ensures Iteration(config, anns, d) == Success(FilterValid(anns))
  {
    var prev := Success(anns);
    assert Stage(config, "vertical_flip", d.vflipRoll, prev, VerticalFlip) == prev;
  }
}
