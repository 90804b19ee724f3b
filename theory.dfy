/**
 * What each step of Harmony.js computes, as functions of its inputs: the clefs
 * object, the de-duplicated alphabet, the rotation to the tonic, the octave
 * expansion, the three diatonic scales, their degrees and the relative
 * tonality. The class in harmony.dfy stores these values in its fields.
 * A slot that JavaScript would read as `undefined` is `None`.
 */
module Theory {
  import opened Wrappers
  import opened JsValues
  import opened Conf

  /**
   * The `clefs` object: `num` (undefined for a name the table lacks), `family`
   * (the source's `type`, "flat" or "sharp"), `sign` (the source's `char`) and
   * `list`, which is present only when `num` is positive.
   */
  datatype ClefInfo = ClefInfo(num: Option<int>, family: string, sign: string, list: Option<seq<Note>>)
  {
    /** The family and its sign agree, so the alphabet lookups are defined. */
    predicate Valid() {
      (family == "flat" && sign == FlatSign) || (family == "sharp" && sign == SharpSign)
    }

    /** `check && this.clefs.list.indexOf(x) > -1` */
    predicate Lists(x: Note) {
      list.Some? && IndexOf(list.value, x) > -1
    }
  }

  /** No entry occurs twice. */
  predicate Distinct<T(==)>(s: seq<T>) {
    forall i, j :: 0 <= i < j < |s| ==> s[i] != s[j]
  }

  /** Entry k sounds k semitones above A: one chromatic octave, each pitch once. */
  predicate OctaveFromA(s: seq<Note>) {
    |s| == 12 && forall k :: 0 <= k < 12 ==> Semitone(s[k]) == k
  }

  /** The `/m/i` test of `main_tonality_get`: an `m` or `M` anywhere in the name. */
  predicate HasMinorMark(name: string) {
    'm' in name || 'M' in name
  }

  // ---------------------------------------------------------------------------
  // Clefs (tonality_clefs_get)

  /** The clefs object built from `_conf.tonalities[main]`. */
  function ClefsFor(signature: Option<int>): (c: ClefInfo)
    ensures c.Valid()
  {
    var flat := signature.Some? && signature.value < 0;
    var num := if flat then Some(0 - signature.value) else signature;
    var family := if flat then "flat" else "sharp";
    var sign := if flat then FlatSign else SharpSign;
    var list := if num.Some? && num.value > 0 then Some(Slice(ClefOrder(family), num.value)) else None;
    ClefInfo(num, family, sign, list)
  }

  /** A signature n gives |n| clefs, flats iff n < 0, and exactly the first |n| accidentals. */
  lemma ClefsFromSignature(n: int)
    requires -7 <= n <= 7
    ensures ClefsFor(Some(n)).num == Some(if n < 0 then -n else n)
    ensures ClefsFor(Some(n)).family == (if n < 0 then "flat" else "sharp")
    ensures ClefsFor(Some(n)).sign == (if n < 0 then FlatSign else SharpSign)
    ensures n == 0 ==> ClefsFor(Some(n)).list == None
    ensures n < 0 ==> ClefsFor(Some(n)).list == Some(FlatClefs[..-n])
    ensures n > 0 ==> ClefsFor(Some(n)).list == Some(SharpClefs[..n])
  {
    assert FlatClefs[..7] == FlatClefs;
    assert SharpClefs[..7] == SharpClefs;
  }

  /** A name missing from the table is not rejected: it gets the sharp family and no list. */
  lemma UnknownNameClefs(name: string)
    requires name !in Tonalities
    ensures ClefsFor(Lookup(name)) == ClefInfo(None, "sharp", SharpSign, None)
  {
  }

  // ---------------------------------------------------------------------------
  // The alphabet of one tonality (first half of chromatic_scale_get)

  /** The semitone alphabet after the two `splice` calls and `slice(0, 12)`. */
  function Deduplicate(c: ClefInfo): seq<Note>
    requires c.Valid()
  {
    var base := SemitoneAlphabet(c.family);
    var once :=
      if c.sign == FlatSign then (if c.Lists(CFlat) then Splice(base, 2) else Splice(base, 3))
      else (if c.Lists(HSharp) then Splice(base, 4) else Splice(base, 3));
    var twice :=
      if c.sign == FlatSign then (if c.Lists(FFlat) then Splice(once, 7) else Splice(once, 8))
      else (if c.Lists(ESharp) then Splice(once, 9) else Splice(once, 8));
    Slice(twice, 12)
  }

  /** The flat alphabet once `H` or `C♭` and then `E` or `F♭` is spliced out. */
  function FlatSurvivors(cFlat: bool, fFlat: bool): seq<Note> {
    [A, B, if cFlat then CFlat else H, C, DFlat, D, EFlat, if fFlat then FFlat else E, F, GFlat, G, AFlat]
  }

  /** The sharp alphabet once `H♯` or `C` and then `E♯` or `F` is spliced out. */
  function SharpSurvivors(hSharp: bool, eSharp: bool): seq<Note> {
    [A, B, H, if hSharp then HSharp else C, CSharp, D, DSharp, E, if eSharp then ESharp else F, FSharp, G, GSharp]
  }

  /** The second splice index (7 or 9 against 8) already allows for the first removal. */
  lemma FlatSplices(cFlat: bool, fFlat: bool)
    ensures var once := if cFlat then Splice(FlatSemitones, 2) else Splice(FlatSemitones, 3);
      Slice(if fFlat then Splice(once, 7) else Splice(once, 8), 12) == FlatSurvivors(cFlat, fFlat)
  {
    var once := if cFlat then Splice(FlatSemitones, 2) else Splice(FlatSemitones, 3);
    assert once == [A, B, if cFlat then CFlat else H, C, DFlat, D, EFlat, E, FFlat, F, GFlat, G, AFlat];
  }

  lemma SharpSplices(hSharp: bool, eSharp: bool)
    ensures var once := if hSharp then Splice(SharpSemitones, 4) else Splice(SharpSemitones, 3);
      Slice(if eSharp then Splice(once, 9) else Splice(once, 8), 12) == SharpSurvivors(hSharp, eSharp)
  {
    var once := if hSharp then Splice(SharpSemitones, 4) else Splice(SharpSemitones, 3);
    assert once == [A, B, H, if hSharp then HSharp else C, CSharp, D, DSharp, E, ESharp, F, FSharp, G, GSharp];
  }

  lemma SurvivorsFromA(cFlat: bool, fFlat: bool, hSharp: bool, eSharp: bool)
    ensures OctaveFromA(FlatSurvivors(cFlat, fFlat))
    ensures OctaveFromA(SharpSurvivors(hSharp, eSharp))
    ensures forall k :: 0 <= k < 12 ==> FlatSurvivors(cFlat, fFlat)[k] in FlatSemitones
    ensures forall k :: 0 <= k < 12 ==> SharpSurvivors(hSharp, eSharp)[k] in SharpSemitones
  {
  }

  /** Twelve entries with twelve different pitches are twelve different names. */
  lemma OctaveFromADistinct(s: seq<Note>)
    requires OctaveFromA(s)
    ensures Distinct(s)
  {
    forall i, j | 0 <= i < j < |s| ensures s[i] != s[j] {
      assert Semitone(s[i]) != Semitone(s[j]);
    }
  }

  /** Which of the two survivor lists the splices produce. */
  lemma DeduplicateIsSurvivors(c: ClefInfo)
    requires c.Valid()
    ensures Deduplicate(c) == if c.sign == FlatSign then FlatSurvivors(c.Lists(CFlat), c.Lists(FFlat))
      else SharpSurvivors(c.Lists(HSharp), c.Lists(ESharp))
  {
    if c.sign == FlatSign {
      FlatSplices(c.Lists(CFlat), c.Lists(FFlat));
    } else {
      SharpSplices(c.Lists(HSharp), c.Lists(ESharp));
    }
  }

  lemma FlatMembership(x: bool, y: bool)
    ensures (H in FlatSurvivors(x, y) <==> !x) && (CFlat in FlatSurvivors(x, y) <==> x)
    ensures (E in FlatSurvivors(x, y) <==> !y) && (FFlat in FlatSurvivors(x, y) <==> y)
  {
    SurvivorsFromA(x, y, x, y);
  }

  lemma SharpMembership(x: bool, y: bool)
    ensures (C in SharpSurvivors(x, y) <==> !x) && (HSharp in SharpSurvivors(x, y) <==> x)
    ensures (F in SharpSurvivors(x, y) <==> !y) && (ESharp in SharpSurvivors(x, y) <==> y)
  {
    SurvivorsFromA(x, y, x, y);
  }

  /**
   * Exactly 12 distinct names remain, entry k sounding k semitones above A,
   * all from the family's alphabet; of each enharmonic double the spelling that
   * the clef list holds survives, and the plain one otherwise.
   */
  lemma DeduplicateSurvivors(c: ClefInfo)
    requires c.Valid()
    ensures OctaveFromA(Deduplicate(c)) && Distinct(Deduplicate(c))
    ensures forall k :: 0 <= k < 12 ==> Deduplicate(c)[k] in SemitoneAlphabet(c.family)
    ensures c.sign == FlatSign ==>
      (H in Deduplicate(c) <==> !c.Lists(CFlat)) && (CFlat in Deduplicate(c) <==> c.Lists(CFlat)) &&
      (E in Deduplicate(c) <==> !c.Lists(FFlat)) && (FFlat in Deduplicate(c) <==> c.Lists(FFlat))
    ensures c.sign == SharpSign ==>
      (C in Deduplicate(c) <==> !c.Lists(HSharp)) && (HSharp in Deduplicate(c) <==> c.Lists(HSharp)) &&
      (F in Deduplicate(c) <==> !c.Lists(ESharp)) && (ESharp in Deduplicate(c) <==> c.Lists(ESharp))
  {
    DeduplicateIsSurvivors(c);
    var flat, sharp := c.sign == FlatSign, c.sign == SharpSign;
    if flat {
      var x, y := c.Lists(CFlat), c.Lists(FFlat);
      SurvivorsFromA(x, y, x, y);
      FlatMembership(x, y);
      OctaveFromADistinct(FlatSurvivors(x, y));
    } else {
      var x, y := c.Lists(HSharp), c.Lists(ESharp);
      SurvivorsFromA(x, y, x, y);
      SharpMembership(x, y);
      OctaveFromADistinct(SharpSurvivors(x, y));
    }
  }

  /**
   * The alphabet of a key signature: C♭ replaces H from six flats on, F♭
   * replaces E at seven; E♯ replaces F from six sharps on, H♯ replaces C at seven.
   */
  function KeyAlphabet(signature: int): seq<Note> {
    if signature < 0 then FlatSurvivors(signature <= -6, signature <= -7)
    else SharpSurvivors(signature >= 7, signature >= 6)
  }

  /** Where each accidental stands in the order key signatures add them. */
  lemma ClefPositions(m: int)
    requires 0 <= m <= 7
    ensures CFlat in FlatClefs[..m] <==> m >= 6
    ensures FFlat in FlatClefs[..m] <==> m >= 7
    ensures HSharp in SharpClefs[..m] <==> m >= 7
    ensures ESharp in SharpClefs[..m] <==> m >= 6
  {
    assert FlatClefs[5] == CFlat && FlatClefs[6] == FFlat;
    assert SharpClefs[5] == ESharp && SharpClefs[6] == HSharp;
    assert forall k :: 0 <= k < 5 ==> FlatClefs[k] != CFlat && FlatClefs[k] != FFlat;
    assert forall k :: 0 <= k < 5 ==> SharpClefs[k] != ESharp && SharpClefs[k] != HSharp;
  }

  /** For every signature of the table the splices leave `KeyAlphabet(signature)`. */
  lemma KeyAlphabetOf(signature: int)
    requires -7 <= signature <= 7
    ensures Deduplicate(ClefsFor(Some(signature))) == KeyAlphabet(signature)
    ensures OctaveFromA(KeyAlphabet(signature))
  {
    var c := ClefsFor(Some(signature));
    ClefsFromSignature(signature);
    ClefPositions(if signature < 0 then -signature else signature);
    DeduplicateIsSurvivors(c);
    SurvivorsFromA(signature <= -6, signature <= -7, signature >= 7, signature >= 6);
  }

  // ---------------------------------------------------------------------------
  // Rotation to the tonic (second half of chromatic_scale_get)

  /** `main.replace(/(^.(♯|♭)?).*​/i, '$1')`: the first character and an accidental after it. */
  function Tonic(name: string): (t: string)
    ensures t <= name
    ensures name != "" ==> 1 <= |t| <= 2
    ensures |t| == 2 ==> t[1] == '♯' || t[1] == '♭'
    ensures |t| == 2 <==> |name| >= 2 && (name[1] == '♯' || name[1] == '♭')
  {
    if |name| >= 2 && (name[1] == '♯' || name[1] == '♭') then name[..2]
    else if name == "" then name
    else name[..1]
  }

  /** `base.indexOf(tonic)`, matching the tonic against written names. */
  function Position(base: seq<Note>, tonic: string): (i: int)
    ensures -1 <= i < |base|
    ensures i == -1 <==> forall k :: 0 <= k < |base| ==> Name(base[k]) != tonic
    ensures 0 <= i ==> Name(base[i]) == tonic && forall k :: 0 <= k < i ==> Name(base[k]) != tonic
  {
    NamesInverse();
    match NoteNamed(tonic)
    case None => -1
    case Some(n) => IndexOf(base, n)
  }

  /** The index arithmetic `i >= 12 ? i - 12 : i` of the push loop. */
  function Wrap(i: int): int {
    if i >= 12 then i - 12 else i
  }

  /** What the push loop collects: `base[index]` for `i` from `beg` up to `beg + 11`. */
  function Rotation(base: seq<Note>, beg: int): (r: seq<Option<Note>>)
    ensures |r| == 12
  {
    seq(12, k => Get(base, Wrap(beg + k)))
  }

  /** `this.chromatic` as `chromatic_scale_get` leaves it. */
  function ChromaticOf(c: ClefInfo, name: string): seq<Option<Note>>
    requires c.Valid()
  {
    var base := Deduplicate(c);
    Rotation(base, Position(base, Tonic(name)))
  }

  /** The chromatic scale of a tonality name, with its own clefs. */
  function ChromaticFor(name: string): seq<Option<Note>> {
    ChromaticOf(ClefsFor(Lookup(name)), name)
  }

  lemma LiftAppend<T>(x: seq<T>, y: seq<T>)
    ensures Lift(x + y) == Lift(x) + Lift(y)
  {
  }

  /** With the tonic found at `beg`, the loop is a rotation of the alphabet. */
  lemma RotationFound(base: seq<Note>, beg: int)
    requires |base| == 12 && 0 <= beg < 12
    ensures Rotation(base, beg) == Lift(base[beg..] + base[..beg])
    ensures forall k :: 0 <= k < 12 ==> Rotation(base, beg)[k] == Some(base[(beg + k) % 12])
    ensures multiset(Rotation(base, beg)) == multiset(Lift(base))
  {
    var r := Rotation(base, beg);
    forall k | 0 <= k < 12 ensures r[k] == Some(base[(beg + k) % 12]) {
      if beg + k >= 12 {
        assert (beg + k) % 12 == beg + k - 12;
      } else {
        assert (beg + k) % 12 == beg + k;
      }
    }
    assert r == Lift(base[beg..] + base[..beg]);
    LiftAppend(base[beg..], base[..beg]);
    LiftAppend(base[..beg], base[beg..]);
    assert base == base[..beg] + base[beg..];
  }

  /** With the tonic missing (`beg == -1`) the first slot reads `base[-1]`, i.e. undefined. */
  lemma RotationMissing(base: seq<Note>)
    requires |base| == 12
    ensures Rotation(base, -1) == [None] + Lift(base[..11])
  {
  }

  /** Every entry is present and each one sounds one semitone above the one before. */
  predicate RisesBySemitones(ch: seq<Option<Note>>) {
    |ch| == 12 && (forall k :: 0 <= k < 12 ==> ch[k].Some?) &&
    forall k :: 0 <= k < 12 ==> Semitone(ch[k].value) == (Semitone(ch[0].value) + k) % 12
  }

  /** Some entry of the alphabet is written as the tonic. */
  predicate TonicListed(c: ClefInfo, name: string)
    requires c.Valid()
  {
    exists k :: 0 <= k < |Deduplicate(c)| && Name(Deduplicate(c)[k]) == Tonic(name)
  }

  /** A tonic that spells no note at all is never found. */
  lemma UnnamedTonic(c: ClefInfo, name: string)
    requires c.Valid() && NoteNamed(Tonic(name)).None?
    ensures !TonicListed(c, name)
  {
    NamesInverse();
    forall k | 0 <= k < |Deduplicate(c)| ensures Name(Deduplicate(c)[k]) != Tonic(name) {
      assert NoteNamed(Name(Deduplicate(c)[k])) == Some(Deduplicate(c)[k]);
    }
  }

  /** Rotating an octave from A at `beg` rises a semitone at a time from `base[beg]`. */
  lemma RotationRises(base: seq<Note>, beg: int)
    requires OctaveFromA(base) && 0 <= beg < 12
    ensures RisesBySemitones(Rotation(base, beg)) && Distinct(Rotation(base, beg))
    ensures Rotation(base, beg)[0] == Some(base[beg])
  {
    var ch := Rotation(base, beg);
    RotationFound(base, beg);
    forall k | 0 <= k < 12 ensures Semitone(ch[k].value) == (Semitone(ch[0].value) + k) % 12 {
      assert Semitone(base[(beg + k) % 12]) == (beg + k) % 12;
    }
    forall i, j | 0 <= i < j < 12 ensures ch[i] != ch[j] {
      assert Semitone(ch[i].value) != Semitone(ch[j].value);
    }
  }

  /**
   * When the tonic is spelled in the alphabet, the chromatic scale starts on
   * it, rises a semitone at a time and holds each alphabet name exactly once;
   * otherwise its first slot is undefined and the rest is the alphabet from A.
   */
  lemma ChromaticShape(c: ClefInfo, name: string)
    requires c.Valid()
    ensures |ChromaticOf(c, name)| == 12
    ensures TonicListed(c, name) ==>
      ChromaticOf(c, name)[0].Some? && Name(ChromaticOf(c, name)[0].value) == Tonic(name) &&
      RisesBySemitones(ChromaticOf(c, name)) && Distinct(ChromaticOf(c, name)) &&
      multiset(ChromaticOf(c, name)) == multiset(Lift(Deduplicate(c)))
    ensures !TonicListed(c, name) ==> ChromaticOf(c, name) == [None] + Lift(Deduplicate(c)[..11])
  {
    var base := Deduplicate(c);
    DeduplicateSurvivors(c);
    var beg := Position(base, Tonic(name));
    if TonicListed(c, name) {
      RotationFound(base, beg);
      RotationRises(base, beg);
    } else {
      RotationMissing(base);
    }
  }

  // ---------------------------------------------------------------------------
  // Octave expansion (chromatic_scale_get_expanded)

  /** `octaves || 2`: an absent or zero count means two octaves. */
  function Octaves(octaves: Option<int>): int {
    if octaves.None? || octaves.value == 0 then 2 else octaves.value
  }

  /** `n` copies of `s`, concatenated one after another; none when `n <= 0`. */
  function Repeat<T>(s: seq<T>, n: int): seq<T>
    decreases n
  {
    if n <= 0 then [] else Repeat(s, n - 1) + s
  }

  /** The new `this.chromatic`: the first 12 entries, repeated `octaves || 2` times. */
  function Expand(chromatic: seq<Option<Note>>, octaves: Option<int>): seq<Option<Note>> {
    Repeat(Slice(chromatic, 12), Octaves(octaves))
  }

  lemma {:induction false} RepeatAt<T>(s: seq<T>, n: int)
    requires |s| == 12
    ensures |Repeat(s, n)| == if n <= 0 then 0 else 12 * n
    ensures forall i :: 0 <= i < |Repeat(s, n)| ==> Repeat(s, n)[i] == s[i % 12]
    decreases n
  {
    if n > 0 {
      RepeatAt(s, n - 1);
      forall i | 0 <= i < 12 * n ensures Repeat(s, n)[i] == s[i % 12] {
        if i >= 12 * (n - 1) {
          assert i % 12 == i - 12 * (n - 1);
        }
      }
    }
  }

  /** The expansion holds `12 * octaves` entries, entry i repeating entry `i mod 12`. */
  lemma ExpandShape(chromatic: seq<Option<Note>>, octaves: Option<int>)
    requires |chromatic| >= 12
    ensures |Expand(chromatic, octaves)| == if Octaves(octaves) <= 0 then 0 else 12 * Octaves(octaves)
    ensures forall i :: 0 <= i < |Expand(chromatic, octaves)| ==> Expand(chromatic, octaves)[i] == chromatic[i % 12]
  {
    RepeatAt(Slice(chromatic, 12), Octaves(octaves));
  }

  /** Only the first octave is read, so expanding again equals expanding the original once. */
  lemma ExpandTwice(chromatic: seq<Option<Note>>, first: Option<int>, second: Option<int>)
    requires |chromatic| >= 12 && Octaves(first) >= 1
    ensures Expand(Expand(chromatic, first), second) == Expand(chromatic, second)
  {
    ExpandShape(chromatic, first);
    var once := Expand(chromatic, first);
    assert Slice(once, 12) == Slice(chromatic, 12);
  }

  // ---------------------------------------------------------------------------
  // Diatonic scales (natural_scale_get, harmonic_scale_get, melodic_scale_get)

  /** The three scale getters; `this[type + '_scale_get']` dispatches on this. */
  datatype ScaleType = Natural | Harmonic | Melodic

  /** The chromatic indices each getter reads, closing on the tonic again. */
  function Pattern(kind: ScaleType, minor: bool): seq<int>
    requires kind == Melodic ==> minor
  {
    match kind
    case Natural => if minor then [0, 2, 3, 5, 7, 8, 10, 0] else [0, 2, 4, 5, 7, 9, 11, 0]
    case Harmonic => if minor then [0, 2, 3, 5, 7, 8, 11, 0] else [0, 2, 4, 5, 7, 8, 11, 0]
    case Melodic => [0, 2, 3, 5, 7, 9, 11, 0]
  }

  /** The steps between successive degrees, the last one rising to the octave. */
  function Steps(p: seq<int>): seq<int>
    requires |p| == 8
  {
    seq(7, k requires 0 <= k < 7 => (if k == 6 then 12 else p[k + 1]) - p[k])
  }

  /**
   * The patterns are the textbook step formulas, harmonic raising the minor
   * seventh or lowering the major sixth, melodic raising the minor sixth and seventh.
   */
  lemma PatternSteps()
    ensures Steps(Pattern(Natural, false)) == [2, 2, 1, 2, 2, 2, 1]
    ensures Steps(Pattern(Natural, true)) == [2, 1, 2, 2, 1, 2, 2]
    ensures Steps(Pattern(Harmonic, true)) == [2, 1, 2, 2, 1, 3, 1]
    ensures Steps(Pattern(Harmonic, false)) == [2, 2, 1, 2, 1, 3, 1]
    ensures Steps(Pattern(Melodic, true)) == [2, 1, 2, 2, 2, 2, 1]
    ensures Pattern(Harmonic, true) == Pattern(Natural, true)[6 := 11]
    ensures Pattern(Harmonic, false) == Pattern(Natural, false)[5 := 8]
    ensures Pattern(Melodic, true) == Pattern(Natural, true)[5 := 9][6 := 11]
  {
  }

  /** The scale array literal: `this.chromatic[p]` for each index of the pattern. */
  function ScaleFrom(chromatic: seq<Option<Note>>, pattern: seq<int>): (s: seq<Option<Note>>)
    ensures |s| == |pattern|
  {
    seq(|pattern|, k requires 0 <= k < |pattern| => Read(chromatic, pattern[k]))
  }

  /** Every scale has eight entries and closes on the tonic it starts from. */
  lemma ScaleCloses(chromatic: seq<Option<Note>>, kind: ScaleType, minor: bool)
    requires kind == Melodic ==> minor
    ensures |ScaleFrom(chromatic, Pattern(kind, minor))| == 8
    ensures ScaleFrom(chromatic, Pattern(kind, minor))[0] == ScaleFrom(chromatic, Pattern(kind, minor))[7]
    ensures ScaleFrom(chromatic, Pattern(kind, minor))[0] == Read(chromatic, 0)
  {
  }

  /** Every pattern indexes the chromatic scale and rises strictly up to the seventh degree. */
  lemma PatternRises(kind: ScaleType, minor: bool)
    requires kind == Melodic ==> minor
    ensures |Pattern(kind, minor)| == 8
    ensures forall k :: 0 <= k < 8 ==> 0 <= Pattern(kind, minor)[k] < 12
    ensures forall i, j :: 0 <= i < j < 7 ==> Pattern(kind, minor)[i] < Pattern(kind, minor)[j]
  {
  }

  /**
   * On a well-formed chromatic scale, degree k sits `Pattern[k]` semitones above
   * the tonic, and the seven degrees are seven different names.
   */
  lemma ScaleOnTonic(chromatic: seq<Option<Note>>, kind: ScaleType, minor: bool)
    requires RisesBySemitones(chromatic) && Distinct(chromatic)
    requires kind == Melodic ==> minor
    ensures forall k :: 0 <= k < 8 ==> ScaleFrom(chromatic, Pattern(kind, minor))[k].Some?
    ensures forall k :: 0 <= k < 8 ==>
              Semitone(ScaleFrom(chromatic, Pattern(kind, minor))[k].value)
              == (Semitone(chromatic[0].value) + Pattern(kind, minor)[k]) % 12
    ensures Distinct(ScaleFrom(chromatic, Pattern(kind, minor))[..7])
  {
    var p := Pattern(kind, minor);
    PatternRises(kind, minor);
    var s := ScaleFrom(chromatic, p);
    forall k | 0 <= k < 8 ensures s[k] == chromatic[p[k]] {
    }
    forall i, j | 0 <= i < j < 7 ensures s[..7][i] != s[..7][j] {
      assert chromatic[p[i]] != chromatic[p[j]];
    }
  }

  // ---------------------------------------------------------------------------
  // Degrees (tonality_degrees_get, all_degrees_get)

  /** The `degrees` properties; one that was never assigned reads as undefined. */
  datatype Degrees = Degrees(
    tonic: Option<Note>, supertonic: Option<Note>, mediant: Option<Note>, subdominant: Option<Note>,
    dominant: Option<Note>, submediant: Option<Note>, leadingNote: Option<Note>)

  /** `tonality_degrees_get`: a fresh `degrees` with tonic, dominant and subdominant. */
  function BasicDegrees(scale: seq<Option<Note>>): Degrees {
    Degrees(Read(scale, 0), None, None, Read(scale, 3), Read(scale, 4), None, None)
  }

  /** `all_degrees_get`: the basic degrees plus the other four. */
  function AllDegrees(scale: seq<Option<Note>>): Degrees {
    BasicDegrees(scale).(mediant := Read(scale, 2), supertonic := Read(scale, 1),
                         submediant := Read(scale, 5), leadingNote := Read(scale, 6))
  }

  /**
   * Tonic, subdominant and dominant are the chromatic entries 0, 5 and 7 in every
   * scale type: the basic degrees do not depend on the type asked for.
   */
  lemma BasicDegreesAgree(chromatic: seq<Option<Note>>, kind: ScaleType, minor: bool)
    requires kind == Melodic ==> minor
    ensures BasicDegrees(ScaleFrom(chromatic, Pattern(kind, minor)))
      == Degrees(Read(chromatic, 0), None, None, Read(chromatic, 5), Read(chromatic, 7), None, None)
  {
  }

  /**
   * The seven degrees read the chromatic entries of the pattern: the mediant a
   * minor or major third up, the submediant and leading note as the type alters them.
   */
  lemma AllDegreesOffsets(chromatic: seq<Option<Note>>, kind: ScaleType, minor: bool)
    requires kind == Melodic ==> minor
    ensures var d := AllDegrees(ScaleFrom(chromatic, Pattern(kind, minor)));
      d.tonic == Read(chromatic, 0) && d.supertonic == Read(chromatic, 2) &&
      d.mediant == Read(chromatic, if minor then 3 else 4) &&
      d.subdominant == Read(chromatic, 5) && d.dominant == Read(chromatic, 7) &&
      d.submediant == Read(chromatic, if kind == Melodic || (kind == Natural && !minor) then 9 else 8) &&
      d.leadingNote == Read(chromatic, if kind == Natural && minor then 10 else 11)
  {
  }

  // ---------------------------------------------------------------------------
  // Relative tonality (relative_tonality_get)

  /** `String(x)` for a slot: the written name, or "undefined". */
  function Text(n: Option<Note>): string {
    match n
    case Some(x) => Name(x)
    case None => "undefined"
  }

  /** `chromatic[3]` for a minor tonality, otherwise `chromatic[9] + 'm'`. */
  function RelativeOf(chromatic: seq<Option<Note>>, minor: bool): Option<string> {
    if minor then
      match Read(chromatic, 3)
      case Some(n) => Some(Name(n))
      case None => None
    else Some(Text(Read(chromatic, 9)) + "m")
  }

  /**
   * The relative major is the mediant of the natural minor scale; the relative
   * minor is built on the submediant of the natural major scale.
   */
  lemma RelativeFromScale(chromatic: seq<Option<Note>>, minor: bool)
    ensures minor ==>
              RelativeOf(chromatic, minor)
              == (if ScaleFrom(chromatic, Pattern(Natural, true))[2].Some?
                  then Some(Name(ScaleFrom(chromatic, Pattern(Natural, true))[2].value)) else None)
    ensures !minor ==>
              RelativeOf(chromatic, minor)
              == Some(Text(ScaleFrom(chromatic, Pattern(Natural, false))[5]) + "m")
  {
  }

  /** On a well-formed chromatic scale the relative tonic is a minor third up, or down. */
  lemma RelativeInterval(chromatic: seq<Option<Note>>, minor: bool)
    requires RisesBySemitones(chromatic)
    ensures minor ==>
              exists n :: RelativeOf(chromatic, minor) == Some(Name(n))
                          && Semitone(n) == (Semitone(chromatic[0].value) + 3) % 12
    ensures !minor ==>
              exists n :: RelativeOf(chromatic, minor) == Some(Name(n) + "m")
                          && (Semitone(n) + 3) % 12 == Semitone(chromatic[0].value)
  {
    if minor {
      assert RelativeOf(chromatic, minor) == Some(Name(chromatic[3].value));
    } else {
      assert RelativeOf(chromatic, minor) == Some(Name(chromatic[9].value) + "m");
    }
  }
}
