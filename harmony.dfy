/**
 * The `Harmony` object of Harmony.js: its prototype methods fill and delete
 * properties on `this`. Each method is specified by a transition function on
 * `HarmonyState`, a snapshot of all those properties; the lemmas below relate
 * the transitions to the theory of each step.
 */
module Harmony {
  import opened Wrappers
  import opened JsValues
  import opened Conf
  import opened Theory

  /** `this.natural`, `this.harmonic` or `this.melodic`: the scale and, once asked for, its degrees. */
  datatype ScaleObject = ScaleObject(scale: seq<Option<Note>>, degrees: Option<Degrees>)

  /** The properties of a `Harmony` object; an absent (or deleted) one is `None`, an unset `minor` is false. */
  datatype HarmonyState = HarmonyState(
    main: Option<string>,
    minor: bool,
    clefs: Option<ClefInfo>,
    chromatic: Option<seq<Option<Note>>>,
    natural: Option<ScaleObject>,
    harmonic: Option<ScaleObject>,
    melodic: Option<ScaleObject>,
    relative: Option<string>)

  /** A fresh object, before any method ran. */
  const Empty := HarmonyState(None, false, None, None, None, None, None, None)

  /** A string property is truthy when it is present and not the empty string. */
  predicate Truthy(s: Option<string>) {
    s.Some? && s.value != ""
  }

  /** Whether the state can be worked on without reading a property of `undefined`. */
  predicate Coherent(s: HarmonyState) {
    (s.clefs.Some? ==> s.clefs.value.Valid()) &&
    (Truthy(s.main) ==> s.clefs.Some? && s.chromatic.Some?) &&
    (s.minor ==> Truthy(s.main))
  }

  // ---------------------------------------------------------------------------
  // all_clear

  /** The property names `all_clear` walks through. */
  const ClearedProperties: seq<string> :=
    ["main", "minor", "clefs", "chords", "natural", "melodic", "harmonic", "relative", "chromatic"]

  /**
   * `if (this[name]) delete this[name]`. Objects and arrays are always truthy;
   * "chords" names a property that no method of the object ever sets.
   */
  function Deleted(s: HarmonyState, name: string): HarmonyState {
    if name == "main" then (if Truthy(s.main) then s.(main := None) else s)
    else if name == "minor" then s.(minor := false)
    else if name == "clefs" then s.(clefs := None)
    else if name == "natural" then s.(natural := None)
    else if name == "melodic" then s.(melodic := None)
    else if name == "harmonic" then s.(harmonic := None)
    else if name == "relative" then (if Truthy(s.relative) then s.(relative := None) else s)
    else if name == "chromatic" then s.(chromatic := None)
    else s
  }

  /** The state once the loop has handled `names`, in order. */
  function ClearAll(s: HarmonyState, names: seq<string>): HarmonyState
    decreases |names|
  {
    if names == [] then s else Deleted(ClearAll(s, names[..|names| - 1]), names[|names| - 1])
  }

  /** What `all_clear` leaves: every computed property gone, except an empty `main` or `relative` string. */
  function Cleared(s: HarmonyState): HarmonyState {
    HarmonyState(if Truthy(s.main) then None else s.main, false, None, None, None, None, None,
                 if Truthy(s.relative) then None else s.relative)
  }

  /** One more name handled by the loop: one more deletion on top. */
  lemma ClearStep(s: HarmonyState, names: seq<string>, k: int)
    requires 0 <= k < |names|
    ensures ClearAll(s, names[..k + 1]) == Deleted(ClearAll(s, names[..k]), names[k])
  {
    assert names[..k + 1][..k] == names[..k];
  }

  /** The nine deletions, one after another, amount to `Cleared`. */
  lemma ClearAllCleared(s: HarmonyState)
    ensures ClearAll(s, ClearedProperties) == Cleared(s)
  {
    var names := ClearedProperties;
    assert names[..0] == [];
    ClearStep(s, names, 0);
    ClearStep(s, names, 1);
    ClearStep(s, names, 2);
    ClearStep(s, names, 3);
    ClearStep(s, names, 4);
    ClearStep(s, names, 5);
    ClearStep(s, names, 6);
    ClearStep(s, names, 7);
    ClearStep(s, names, 8);
    assert names[..9] == names;
  }

  /** Clearing twice is clearing once, and a cleared state is coherent. */
  lemma ClearedIdempotent(s: HarmonyState)
    ensures Cleared(Cleared(s)) == Cleared(s)
    ensures Coherent(Cleared(s))
    ensures !Truthy(Cleared(s).main) && !Truthy(Cleared(s).relative)
  {
  }

  // ---------------------------------------------------------------------------
  // tonality_clefs_get, chromatic_scale_get, main_tonality_get

  function TonalityClefs(s: HarmonyState): HarmonyState {
    if Truthy(s.main) then s.(clefs := Some(ClefsFor(Lookup(s.main.value)))) else s
  }

  /** `chromatic_scale_get` reads `this.clefs.list`, `type` and `char` once `main` is truthy. */
  predicate ClefsReady(s: HarmonyState) {
    Truthy(s.main) ==> s.clefs.Some? && s.clefs.value.Valid()
  }

  function ChromaticScale(s: HarmonyState): HarmonyState
    requires ClefsReady(s)
  {
    if Truthy(s.main) then s.(chromatic := Some(ChromaticOf(s.clefs.value, s.main.value))) else s
  }

  /** `main_tonality_get(tonality)`; its `!== false` guard never fails, so there is no other branch. */
  function MainTonality(s: HarmonyState, tonality: string): HarmonyState {
    ChromaticScale(TonalityClefs(Cleared(s).(main := Some(tonality), minor := HasMinorMark(tonality))))
  }

  /** One more turn of the push loop of `chromatic_scale_get`. */
  lemma RotationStep(base: seq<Note>, beg: int, j: int)
    requires 0 <= j < 12
    ensures Rotation(base, beg)[..j + 1] == Rotation(base, beg)[..j] + [Get(base, if beg + j >= 12 then beg + j - 12 else beg + j)]
  {
    assert Rotation(base, beg)[j] == Get(base, Wrap(beg + j));
    assert Rotation(base, beg)[..j + 1] == Rotation(base, beg)[..j] + [Rotation(base, beg)[j]];
  }

  /** The constructor: `main_tonality_get` only for a truthy name. */
  function Initial(tonality: Option<string>): HarmonyState {
    if Truthy(tonality) then MainTonality(Empty, tonality.value) else Empty
  }

  /**
   * For a non-empty name: `main` is the name, `minor` says whether it holds an
   * `m` or `M`, clefs and chromatic scale are those of the name, the scales
   * are gone, and the result is coherent.
   */
  lemma MainTonalityFields(s: HarmonyState, tonality: string)
    requires tonality != ""
    ensures var r := MainTonality(s, tonality);
      r.main == Some(tonality) && r.minor == HasMinorMark(tonality) &&
      r.clefs == Some(ClefsFor(Lookup(tonality))) && r.chromatic == Some(ChromaticFor(tonality)) &&
      r.natural.None? && r.harmonic.None? && r.melodic.None? &&
      r.relative == Cleared(s).relative && Coherent(r)
  {
  }

  /** An empty name is stored, but no clefs or chromatic scale are computed for it. */
  lemma MainTonalityEmpty(s: HarmonyState)
    ensures MainTonality(s, "") == Cleared(s).(main := Some(""))
  {
  }

  /**
   * A name missing from the table is accepted all the same: it gets the sharp
   * family, no clef list, and the chromatic scale of the plain sharp alphabet.
   */
  lemma MainTonalityUnknown(s: HarmonyState, tonality: string)
    requires tonality != "" && tonality !in Tonalities
    ensures var r := MainTonality(s, tonality);
      r.clefs == Some(ClefInfo(None, "sharp", SharpSign, None)) &&
      r.chromatic == Some(ChromaticOf(ClefInfo(None, "sharp", SharpSign, None), tonality)) &&
      r.minor == HasMinorMark(tonality)
  {
    UnknownNameClefs(tonality);
  }

  /**
   * After `main_tonality_get` the chromatic scale holds 12 slots; it starts on
   * the tonic and rises a semitone at a time whenever the alphabet spells the tonic.
   */
  lemma MainTonalityChromatic(s: HarmonyState, tonality: string)
    requires tonality != ""
    ensures var r := MainTonality(s, tonality);
      r.chromatic.Some? && |r.chromatic.value| == 12 &&
      (TonicListed(r.clefs.value, tonality) ==>
        r.chromatic.value[0].Some? && Name(r.chromatic.value[0].value) == Tonic(tonality) &&
        RisesBySemitones(r.chromatic.value) && Distinct(r.chromatic.value))
  {
    ChromaticShape(ClefsFor(Lookup(tonality)), tonality);
  }

  /** The constructor leaves a coherent object, computed only for a truthy name. */
  lemma InitialCoherent(tonality: Option<string>)
    ensures Coherent(Initial(tonality))
    ensures !Truthy(tonality) ==> Initial(tonality) == Empty
    ensures Truthy(tonality) ==> Initial(tonality).main == tonality
  {
  }

  // ---------------------------------------------------------------------------
  // chromatic_scale_get_expanded

  function ExpandedScale(s: HarmonyState, octaves: Option<int>): HarmonyState
    requires s.chromatic.Some?
  {
    s.(chromatic := Some(Expand(s.chromatic.value, octaves)))
  }

  /** Expanding twice, the first time by at least one octave, is expanding once. */
  lemma ExpandedTwice(s: HarmonyState, first: Option<int>, second: Option<int>)
    requires s.chromatic.Some? && |s.chromatic.value| >= 12 && Octaves(first) >= 1
    ensures ExpandedScale(ExpandedScale(s, first), second) == ExpandedScale(s, second)
  {
    ExpandTwice(s.chromatic.value, first, second);
  }

  // ---------------------------------------------------------------------------
  // natural_scale_get, harmonic_scale_get, melodic_scale_get

  /** The property `this[type]`. */
  function ScaleOf(s: HarmonyState, kind: ScaleType): Option<ScaleObject> {
    match kind
    case Natural => s.natural
    case Harmonic => s.harmonic
    case Melodic => s.melodic
  }

  /** The state with `this[type]` replaced. */
  function WithScale(s: HarmonyState, kind: ScaleType, v: ScaleObject): HarmonyState {
    match kind
    case Natural => s.(natural := Some(v))
    case Harmonic => s.(harmonic := Some(v))
    case Melodic => s.(melodic := Some(v))
  }

  /** Whether the getter builds anything: melodic needs a minor tonality, the others a truthy `main`. */
  predicate Builds(s: HarmonyState, kind: ScaleType) {
    if kind == Melodic then s.minor else Truthy(s.main)
  }

  /** The getter reads `this.chromatic` whenever it builds. */
  predicate ScaleReady(s: HarmonyState, kind: ScaleType) {
    Builds(s, kind) ==> s.chromatic.Some?
  }

  function ScaleBuilt(s: HarmonyState, kind: ScaleType): HarmonyState
    requires ScaleReady(s, kind)
  {
    if Builds(s, kind) then WithScale(s, kind, ScaleObject(ScaleFrom(s.chromatic.value, Pattern(kind, s.minor)), None))
    else s
  }

  /**
   * Building a scale replaces only that scale, with an eight-slot scale on the
   * chromatic scale's first slot; the melodic one exists only for a minor tonality.
   */
  lemma ScaleBuiltFields(s: HarmonyState, kind: ScaleType)
    requires ScaleReady(s, kind) && Coherent(s)
    ensures var r := ScaleBuilt(s, kind);
      Coherent(r) && r.main == s.main && r.chromatic == s.chromatic && r.relative == s.relative &&
      (forall other :: other != kind ==> ScaleOf(r, other) == ScaleOf(s, other)) &&
      (!Builds(s, kind) ==> r == s) &&
      (Builds(s, kind) ==>
        ScaleOf(r, kind) == Some(ScaleObject(ScaleFrom(s.chromatic.value, Pattern(kind, s.minor)), None))) &&
      (Builds(s, kind) ==>
        |ScaleOf(r, kind).value.scale| == 8 &&
        ScaleOf(r, kind).value.scale[0] == ScaleOf(r, kind).value.scale[7] == Read(s.chromatic.value, 0))
  {
    if Builds(s, kind) {
      ScaleCloses(s.chromatic.value, kind, s.minor);
    }
  }

  // ---------------------------------------------------------------------------
  // tonality_degrees_get, all_degrees_get

  /** `type || 'natural'`. */
  function KindOrNatural(kind: Option<ScaleType>): ScaleType {
    if kind.None? then Natural else kind.value
  }

  /** After the getter may have run, `this[type]` must exist. */
  predicate DegreesReady(s: HarmonyState, kind: Option<ScaleType>) {
    var k := KindOrNatural(kind);
    ScaleOf(s, k).Some? || (Builds(s, k) && s.chromatic.Some?)
  }

  function TonalityDegrees(s: HarmonyState, kind: Option<ScaleType>): HarmonyState
    requires DegreesReady(s, kind)
  {
    var k := KindOrNatural(kind);
    var t := if ScaleOf(s, k).None? then ScaleBuilt(s, k) else s;
    var obj := ScaleOf(t, k).value;
    WithScale(t, k, obj.(degrees := Some(BasicDegrees(obj.scale))))
  }

  function AllDegreesOf(s: HarmonyState, kind: ScaleType): HarmonyState
    requires DegreesReady(s, Some(kind))
  {
    var t := TonalityDegrees(s, Some(kind));
    var obj := ScaleOf(t, kind).value;
    WithScale(t, kind, obj.(degrees := Some(AllDegrees(obj.scale))))
  }

  /**
   * An existing scale is kept as it is, even if the chromatic scale changed
   * since; its degrees are read from it. An absent one is built first.
   */
  lemma DegreesScale(s: HarmonyState, kind: Option<ScaleType>)
    requires DegreesReady(s, kind)
    ensures var k := KindOrNatural(kind);
      var r := ScaleOf(TonalityDegrees(s, kind), k);
      r.Some? &&
      r.value.scale == (if ScaleOf(s, k).Some? then ScaleOf(s, k).value.scale
                        else ScaleFrom(s.chromatic.value, Pattern(k, s.minor))) &&
      r.value.degrees == Some(BasicDegrees(r.value.scale)) &&
      forall other :: other != k ==> ScaleOf(TonalityDegrees(s, kind), other) == ScaleOf(s, other)
  {
  }

  /**
   * On a freshly built scale the basic degrees are the chromatic slots 0, 5 and
   * 7, and all seven degrees follow the pattern of the scale type.
   */
  lemma AllDegreesFresh(s: HarmonyState, kind: ScaleType)
    requires DegreesReady(s, Some(kind)) && ScaleOf(s, kind).None?
    ensures var d := ScaleOf(AllDegreesOf(s, kind), kind).value.degrees.value;
      var ch := s.chromatic.value;
      d == AllDegrees(ScaleFrom(ch, Pattern(kind, s.minor))) &&
      d.tonic == Read(ch, 0) && d.subdominant == Read(ch, 5) && d.dominant == Read(ch, 7) &&
      d.supertonic == Read(ch, 2) && d.mediant == Read(ch, if s.minor then 3 else 4)
  {
    AllDegreesOffsets(s.chromatic.value, kind, s.minor);
  }

  // ---------------------------------------------------------------------------
  // relative_tonality_get

  /** Reads `this.chromatic` once `main` is truthy. */
  predicate ChromaticReady(s: HarmonyState) {
    Truthy(s.main) ==> s.chromatic.Some?
  }

  function RelativeTonality(s: HarmonyState): HarmonyState
    requires ChromaticReady(s)
  {
    if Truthy(s.main) then s.(relative := RelativeOf(s.chromatic.value, s.minor)) else s
  }

  /** Nothing is set without a main tonality; otherwise only `relative` changes. */
  lemma RelativeTonalityFields(s: HarmonyState)
    requires ChromaticReady(s)
    ensures !Truthy(s.main) ==> RelativeTonality(s) == s
    ensures Truthy(s.main) ==> RelativeTonality(s).(relative := s.relative) == s
    ensures Truthy(s.main) && !s.minor ==> Truthy(RelativeTonality(s).relative)
  {
  }

  /** A coherent object meets what every method reads before it touches a property of `undefined`. */
  lemma CoherentReady(s: HarmonyState)
    requires Coherent(s)
    ensures ClefsReady(s) && ChromaticReady(s)
    ensures forall k :: ScaleReady(s, k)
  {
    forall k ensures ScaleReady(s, k) {
      if k == Melodic && s.minor {
        assert Truthy(s.main);
      }
    }
  }

  // ---------------------------------------------------------------------------
  // The object

  class Harmony {
    var main: Option<string>
    var minor: bool
    var clefs: Option<ClefInfo>
    var chromatic: Option<seq<Option<Note>>>
    var natural: Option<ScaleObject>
    var harmonic: Option<ScaleObject>
    var melodic: Option<ScaleObject>
    var relative: Option<string>

    /** All properties of the object at once. */
    function State(): HarmonyState
      reads this
    {
      HarmonyState(main, minor, clefs, chromatic, natural, harmonic, melodic, relative)
    }

    ghost predicate Valid()
      reads this
    {
      Coherent(State())
    }

    /** `new Harmony(tonality)`. */
    constructor (tonality: Option<string>)
      ensures State() == Initial(tonality)
      ensures Valid()
    {
      main, minor, clefs, chromatic := None, false, None, None;
      natural, harmonic, melodic, relative := None, None, None, None;
      new;
      if Truthy(tonality) {
        MainTonalityGet(tonality.value);
      }
    }

    /** `if (this[name]) delete this[name]`. */
    method DeleteIfTruthy(name: string)
      modifies this
      ensures State() == Deleted(old(State()), name)
    {
      if name == "main" {
        if Truthy(main) { main := None; }
      } else if name == "minor" {
        if minor { minor := false; }
      } else if name == "clefs" {
        clefs := None;
      } else if name == "natural" {
        natural := None;
      } else if name == "melodic" {
        melodic := None;
      } else if name == "harmonic" {
        harmonic := None;
      } else if name == "relative" {
        if Truthy(relative) { relative := None; }
      } else if name == "chromatic" {
        chromatic := None;
      }
    }

    method AllClear()
      modifies this
      ensures State() == Cleared(old(State()))
      ensures Valid()
    {
      var check := ClearedProperties;
      var i := 0;
      while i < |check|
        invariant 0 <= i <= |check|
        invariant State() == ClearAll(old(State()), check[..i])
      {
        assert check[..i + 1][..i] == check[..i];
        DeleteIfTruthy(check[i]);
        i := i + 1;
      }
      assert check[..i] == check;
      ClearAllCleared(old(State()));
    }

    method MainTonalityGet(tonality: string)
      modifies this
      ensures State() == MainTonality(old(State()), tonality)
      ensures Valid()
    {
      AllClear();
      main := Some(tonality);
      if HasMinorMark(tonality) {
        minor := true;
      }
      TonalityClefsGet();
      ChromaticScaleGet();
    }

    method TonalityClefsGet()
      modifies this`clefs
      ensures State() == TonalityClefs(old(State()))
      ensures old(Valid()) ==> Valid()
    {
      if Truthy(main) {
        clefs := Some(ClefsFor(Lookup(main.value)));
      }
    }

    method ChromaticScaleGet()
      requires ClefsReady(State())
      modifies this`chromatic
      ensures State() == ChromaticScale(old(State()))
      ensures old(Valid()) ==> Valid()
    {
      if Truthy(main) {
        var base := DuplicatesRemoved(clefs.value);
        var beg := Position(base, Tonic(main.value));
        PushRotation(base, beg);
      }
    }

    /**
     * The second half of `chromatic_scale_get`: `this.chromatic` starts empty and
     * the loop pushes `base[index]` for `i` from `beg` up to `beg + 11`.
     */
    method PushRotation(base: seq<Note>, beg: int)
      modifies this`chromatic
      ensures chromatic == Some(Rotation(base, beg))
    {
      var end := beg + 12;
      chromatic := Some([]);
      var i := beg;
      while i < end
        invariant beg <= i <= end
        invariant chromatic == Some(Rotation(base, beg)[..i - beg])
      {
        var index := if i >= 12 then i - 12 else i;
        RotationStep(base, beg, i - beg);
        chromatic := Some(chromatic.value + [Get(base, index)]);
        i := i + 1;
      }
      assert Rotation(base, beg)[..12] == Rotation(base, beg);
    }

    /**
     * The first half of `chromatic_scale_get`: a copy of the family's alphabet
     * with one spelling of each enharmonic double spliced out, cut to 12.
     */
    static method DuplicatesRemoved(c: ClefInfo) returns (base: seq<Note>)
      requires c.Valid()
      ensures base == Deduplicate(c)
    {
      var check := c.list.Some?;
      base := SemitoneAlphabet(c.family);
      if c.sign == FlatSign {
        if check && IndexOf(c.list.value, CFlat) > -1 { base := Splice(base, 2); } else { base := Splice(base, 3); }
        if check && IndexOf(c.list.value, FFlat) > -1 { base := Splice(base, 7); } else { base := Splice(base, 8); }
      } else {
        if check && IndexOf(c.list.value, HSharp) > -1 { base := Splice(base, 4); } else { base := Splice(base, 3); }
        if check && IndexOf(c.list.value, ESharp) > -1 { base := Splice(base, 9); } else { base := Splice(base, 8); }
      }
      base := Slice(base, 12);
    }

    method ChromaticScaleGetExpanded(octaves: Option<int>)
      requires chromatic.Some?
      modifies this`chromatic
      ensures State() == ExpandedScale(old(State()), octaves)
      ensures old(Valid()) ==> Valid()
    {
      var count := Octaves(octaves);
      var octave := Slice(chromatic.value, 12);
      var expanded: seq<Option<Note>> := [];
      var i := 0;
      while i < count
        invariant 0 <= i <= if count > 0 then count else 0
        invariant expanded == Repeat(octave, i)
      {
        expanded := expanded + octave;
        i := i + 1;
      }
      chromatic := Some(expanded);
    }

    method NaturalScaleGet()
      requires ScaleReady(State(), Natural)
      modifies this`natural
      ensures State() == ScaleBuilt(old(State()), Natural)
      ensures old(Valid()) ==> Valid()
    {
      if Truthy(main) {
        var ch := chromatic.value;
        var scale;
        if minor {
          scale := [Read(ch, 0), Read(ch, 2), Read(ch, 3), Read(ch, 5), Read(ch, 7), Read(ch, 8), Read(ch, 10), Read(ch, 0)];
        } else {
          scale := [Read(ch, 0), Read(ch, 2), Read(ch, 4), Read(ch, 5), Read(ch, 7), Read(ch, 9), Read(ch, 11), Read(ch, 0)];
        }
        assert scale == ScaleFrom(ch, Pattern(Natural, minor));
        natural := Some(ScaleObject(scale, None));
      }
    }

    method HarmonicScaleGet()
      requires ScaleReady(State(), Harmonic)
      modifies this`harmonic
      ensures State() == ScaleBuilt(old(State()), Harmonic)
      ensures old(Valid()) ==> Valid()
    {
      if Truthy(main) {
        var ch := chromatic.value;
        var scale;
        if minor {
          scale := [Read(ch, 0), Read(ch, 2), Read(ch, 3), Read(ch, 5), Read(ch, 7), Read(ch, 8), Read(ch, 11), Read(ch, 0)];
        } else {
          scale := [Read(ch, 0), Read(ch, 2), Read(ch, 4), Read(ch, 5), Read(ch, 7), Read(ch, 8), Read(ch, 11), Read(ch, 0)];
        }
        assert scale == ScaleFrom(ch, Pattern(Harmonic, minor));
        harmonic := Some(ScaleObject(scale, None));
      }
    }

    method MelodicScaleGet()
      requires ScaleReady(State(), Melodic)
      modifies this`melodic
      ensures State() == ScaleBuilt(old(State()), Melodic)
      ensures old(Valid()) ==> Valid()
    {
      if minor {
        var ch := chromatic.value;
        var scale := [Read(ch, 0), Read(ch, 2), Read(ch, 3), Read(ch, 5), Read(ch, 7), Read(ch, 9), Read(ch, 11), Read(ch, 0)];
        assert scale == ScaleFrom(ch, Pattern(Melodic, minor));
        melodic := Some(ScaleObject(scale, None));
      }
    }

    /** `this[type + '_scale_get']()`. */
    method ScaleGet(kind: ScaleType)
      requires ScaleReady(State(), kind)
      modifies this
      ensures State() == ScaleBuilt(old(State()), kind)
    {
      match kind
      case Natural => NaturalScaleGet();
      case Harmonic => HarmonicScaleGet();
      case Melodic => MelodicScaleGet();
    }

    /** `this[type] = v`. */
    method SetScale(kind: ScaleType, v: ScaleObject)
      modifies this
      ensures State() == WithScale(old(State()), kind, v)
    {
      match kind
      case Natural => natural := Some(v);
      case Harmonic => harmonic := Some(v);
      case Melodic => melodic := Some(v);
    }

    method TonalityDegreesGet(kind: Option<ScaleType>)
      requires DegreesReady(State(), kind)
      modifies this
      ensures State() == TonalityDegrees(old(State()), kind)
      ensures old(Valid()) ==> Valid()
    {
      var k := KindOrNatural(kind);
      if ScaleOf(State(), k).None? {
        ScaleGet(k);
      }
      var obj := ScaleOf(State(), k).value;
      var degrees := Degrees(Read(obj.scale, 0), None, None, Read(obj.scale, 3), Read(obj.scale, 4), None, None);
      SetScale(k, obj.(degrees := Some(degrees)));
    }

    method AllDegreesGet(kind: ScaleType)
      requires DegreesReady(State(), Some(kind))
      modifies this
      ensures State() == AllDegreesOf(old(State()), kind)
      ensures old(Valid()) ==> Valid()
    {
      TonalityDegreesGet(Some(kind));
      var obj := ScaleOf(State(), kind).value;
      var degrees := obj.degrees.value.(mediant := Read(obj.scale, 2), supertonic := Read(obj.scale, 1),
                                        submediant := Read(obj.scale, 5), leadingNote := Read(obj.scale, 6));
      SetScale(kind, obj.(degrees := Some(degrees)));
    }

    method RelativeTonalityGet()
      requires ChromaticReady(State())
      modifies this`relative
      ensures State() == RelativeTonality(old(State()))
      ensures old(Valid()) ==> Valid()
    {
      if Truthy(main) {
        var ch := chromatic.value;
        if minor {
          var third := Read(ch, 3);
          relative := if third.Some? then Some(Name(third.value)) else None;
        } else {
          var sixth := Read(ch, 9);
          relative := Some(Text(sixth) + "m");
        }
      }
    }
  }
}
