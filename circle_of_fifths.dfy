/**
 * What the model computes for the thirty names of the circle of fifths: which
 * tonics the alphabets cannot spell, and which names the relative tonality
 * leads back to.
 */
module CircleOfFifths {
  import opened Wrappers
  import opened JsValues
  import opened Conf
  import opened Theory
  import opened Harmony

  /** The relative tonality a name gets from `main_tonality_get` followed by `relative_tonality_get`. */
  function RelativeName(name: string): Option<string> {
    RelativeOf(ChromaticFor(name), HasMinorMark(name))
  }

  /** Whether the name's own alphabet spells its tonic, so that the chromatic scale starts on it. */
  predicate Spelled(name: string) {
    TonicListed(ClefsFor(Lookup(name)), name)
  }

  /** That is what the object stores. */
  lemma RelativeNameStored(s: HarmonyState, name: string)
    requires name != ""
    ensures RelativeTonality(MainTonality(s, name)).relative == RelativeName(name)
  {
  }

  /**
   * When the tonic spells a note of an alphabet that runs an octave up from A,
   * slot k of the rotation is the alphabet's note `k` semitones above it.
   */
  lemma RotationAt(base: seq<Note>, tonic: string, n: Note)
    requires OctaveFromA(base) && NoteNamed(tonic) == Some(n) && n in base
    ensures forall k :: 0 <= k < 12 ==> Rotation(base, Position(base, tonic))[k] == Some(base[(Semitone(n) + k) % 12])
  {
    var beg := Position(base, tonic);
    assert beg == IndexOf(base, n);
    assert Semitone(base[beg]) == beg;
    RotationFound(base, beg);
  }

  /** The chromatic scale of a listed name whose tonic its alphabet spells, slot by slot. */
  lemma SpelledChromatic(name: string, signature: int, n: Note)
    requires name in Tonalities && Tonalities[name] == signature
    requires NoteNamed(Tonic(name)) == Some(n) && n in KeyAlphabet(signature)
    ensures |ChromaticFor(name)| == 12
    ensures forall k :: 0 <= k < 12 ==> ChromaticFor(name)[k] == Some(KeyAlphabet(signature)[(Semitone(n) + k) % 12])
  {
    assert Lookup(name) == Some(signature);
    KeyAlphabetOf(signature);
    var base := KeyAlphabet(signature);
    assert Deduplicate(ClefsFor(Lookup(name))) == base;
    assert ChromaticFor(name) == Rotation(base, Position(base, Tonic(name)));
    RotationAt(base, Tonic(name), n);
  }

  /** A tonic that names a note of the alphabet is spelled by it. */
  lemma SpelledTonic(name: string, signature: int, n: Note)
    requires name in Tonalities && Tonalities[name] == signature
    requires NoteNamed(Tonic(name)) == Some(n) && KeyAlphabet(signature)[Semitone(n)] == n
    ensures Spelled(name)
  {
    KeyAlphabetOf(signature);
    assert Name(Deduplicate(ClefsFor(Lookup(name)))[Semitone(n)]) == Tonic(name);
  }

  /** A major name's relative: the alphabet's note nine semitones above the tonic, plus `m`. */
  lemma RelativeOfMajor(name: string, signature: int, t: Note, r: Note, relative: string)
    requires name in Tonalities && Tonalities[name] == signature && !HasMinorMark(name)
    requires NoteNamed(Tonic(name)) == Some(t) && KeyAlphabet(signature)[Semitone(t)] == t
    requires KeyAlphabet(signature)[(Semitone(t) + 9) % 12] == r && Name(r) + "m" == relative
    ensures RelativeName(name) == Some(relative) && Spelled(name)
  {
    KeyAlphabetOf(signature);
    SpelledChromatic(name, signature, t);
    assert Read(ChromaticFor(name), 9) == Some(r);
    SpelledTonic(name, signature, t);
  }

  /** A minor name's relative: the alphabet's note three semitones above the tonic. */
  lemma RelativeOfMinor(name: string, signature: int, t: Note, r: Note, relative: string)
    requires name in Tonalities && Tonalities[name] == signature && HasMinorMark(name)
    requires NoteNamed(Tonic(name)) == Some(t) && KeyAlphabet(signature)[Semitone(t)] == t
    requires KeyAlphabet(signature)[(Semitone(t) + 3) % 12] == r && Name(r) == relative
    ensures RelativeName(name) == Some(relative) && Spelled(name)
  {
    KeyAlphabetOf(signature);
    SpelledChromatic(name, signature, t);
    assert Read(ChromaticFor(name), 3) == Some(r);
    SpelledTonic(name, signature, t);
  }

  /**
   * A name whose relative tonality is listed with the same key signature and has
   * the name itself as its relative.
   */
  predicate RoundTrip(name: string) {
    name in Tonalities &&
    var r := RelativeName(name);
    r.Some? && r.value in Tonalities && Tonalities[r.value] == Tonalities[name] && RelativeName(r.value) == Some(name)
  }

  /** A major and a minor name of one signature, the minor tonic a minor third below the major one. */
  lemma RelativePair(major: string, minor: string, signature: int, t: Note, r: Note)
    requires major in Tonalities && minor in Tonalities
    requires Tonalities[major] == signature && Tonalities[minor] == signature
    requires !HasMinorMark(major) && HasMinorMark(minor)
    requires NoteNamed(Tonic(major)) == Some(t) && NoteNamed(Tonic(minor)) == Some(r)
    requires KeyAlphabet(signature)[Semitone(t)] == t && KeyAlphabet(signature)[Semitone(r)] == r
    requires Semitone(r) == (Semitone(t) + 9) % 12 && Semitone(t) == (Semitone(r) + 3) % 12
    requires Name(r) + "m" == minor && Name(t) == major
    ensures RelativeName(major) == Some(minor) && RelativeName(minor) == Some(major)
    ensures RoundTrip(major) && RoundTrip(minor) && Spelled(major) && Spelled(minor)
  {
    RelativeOfMajor(major, signature, t, r, minor);
    RelativeOfMinor(minor, signature, r, t, major);
  }

  lemma RelativePairCFlat()
    ensures RoundTrip("C♭") && RoundTrip("A♭m") && Spelled("C♭") && Spelled("A♭m")
  {
    RelativePair("C♭", "A♭m", -7, CFlat, AFlat);
  }

  lemma RelativePairGFlat()
    ensures RoundTrip("G♭") && RoundTrip("E♭m") && Spelled("G♭") && Spelled("E♭m")
  {
    RelativePair("G♭", "E♭m", -6, GFlat, EFlat);
  }

  lemma RelativePairAFlat()
    ensures RoundTrip("A♭") && RoundTrip("Fm") && Spelled("A♭") && Spelled("Fm")
  {
    RelativePair("A♭", "Fm", -4, AFlat, F);
  }

  lemma RelativePairEFlat()
    ensures RoundTrip("E♭") && RoundTrip("Cm") && Spelled("E♭") && Spelled("Cm")
  {
    RelativePair("E♭", "Cm", -3, EFlat, C);
  }

  lemma RelativePairF()
    ensures RoundTrip("F") && RoundTrip("Dm") && Spelled("F") && Spelled("Dm")
  {
    RelativePair("F", "Dm", -1, F, D);
  }

  lemma RelativePairC()
    ensures RoundTrip("C") && RoundTrip("Am") && Spelled("C") && Spelled("Am")
  {
    RelativePair("C", "Am", 0, C, A);
  }

  lemma RelativePairG()
    ensures RoundTrip("G") && RoundTrip("Em") && Spelled("G") && Spelled("Em")
  {
    RelativePair("G", "Em", 1, G, E);
  }

  lemma RelativePairD()
    ensures RoundTrip("D") && RoundTrip("Hm") && Spelled("D") && Spelled("Hm")
  {
    RelativePair("D", "Hm", 2, D, H);
  }

  lemma RelativePairA()
    ensures RoundTrip("A") && RoundTrip("F♯m") && Spelled("A") && Spelled("F♯m")
  {
    RelativePair("A", "F♯m", 3, A, FSharp);
  }

  lemma RelativePairE()
    ensures RoundTrip("E") && RoundTrip("C♯m") && Spelled("E") && Spelled("C♯m")
  {
    RelativePair("E", "C♯m", 4, E, CSharp);
  }

  lemma RelativePairFSharp()
    ensures RoundTrip("F♯") && RoundTrip("D♯m") && Spelled("F♯") && Spelled("D♯m")
  {
    RelativePair("F♯", "D♯m", 6, FSharp, DSharp);
  }

  /**
   * A listed name whose tonic its alphabet cannot spell: the chromatic scale
   * opens with an undefined slot and then runs from A up the alphabet.
   */
  lemma UnspelledChromatic(name: string)
    requires name in Tonalities && NoteNamed(Tonic(name)).None?
    ensures !Spelled(name)
    ensures ChromaticFor(name) == [None] + Lift(KeyAlphabet(Tonalities[name])[..11])
  {
    var c := ClefsFor(Lookup(name));
    KeyAlphabetOf(Tonalities[name]);
    UnnamedTonic(c, name);
    ChromaticShape(c, name);
  }

  /** Without its tonic a major name reads slot 9, the alphabet's ninth note from A. */
  lemma RelativeOfUnspelledMajor(name: string, signature: int, r: Note, relative: string)
    requires name in Tonalities && Tonalities[name] == signature && !HasMinorMark(name)
    requires NoteNamed(Tonic(name)).None? && KeyAlphabet(signature)[8] == r && Name(r) + "m" == relative
    ensures RelativeName(name) == Some(relative) && !Spelled(name)
  {
    UnspelledChromatic(name);
  }

  /** Without its tonic a minor name reads slot 3, the alphabet's third note from A. */
  lemma RelativeOfUnspelledMinor(name: string, signature: int, r: Note, relative: string)
    requires name in Tonalities && Tonalities[name] == signature && HasMinorMark(name)
    requires NoteNamed(Tonic(name)).None? && KeyAlphabet(signature)[2] == r && Name(r) == relative
    ensures RelativeName(name) == Some(relative) && !Spelled(name)
  {
    UnspelledChromatic(name);
  }

  lemma RelativeOfHFlat()
    ensures RelativeName("H♭") == Some("Fm") && !Spelled("H♭")
  {
    RelativeOfUnspelledMajor("H♭", -2, F, "Fm");
  }

  lemma RelativeOfHFlatMinor()
    ensures RelativeName("H♭m") == Some("H") && !Spelled("H♭m")
  {
    RelativeOfUnspelledMinor("H♭m", -5, H, "H");
  }

  lemma RelativeOfASharpMinor()
    ensures RelativeName("A♯m") == Some("H") && !Spelled("A♯m")
  {
    RelativeOfUnspelledMinor("A♯m", 7, H, "H");
  }

  lemma RelativeOfDFlat()
    ensures RelativeName("D♭") == Some("Bm") && Spelled("D♭")
  {
    RelativeOfMajor("D♭", -5, DFlat, B, "Bm");
  }

  lemma RelativeOfCSharp()
    ensures RelativeName("C♯") == Some("Bm") && Spelled("C♯")
  {
    RelativeOfMajor("C♯", 7, CSharp, B, "Bm");
  }

  lemma RelativeOfGMinor()
    ensures RelativeName("Gm") == Some("B") && Spelled("Gm")
  {
    RelativeOfMinor("Gm", -2, G, B, "B");
  }

  lemma RelativeOfB()
    ensures RelativeName("B") == Some("Gm") && Spelled("B")
  {
    RelativeOfMajor("B", 5, B, G, "Gm");
  }

  lemma RelativeOfGSharpMinor()
    ensures RelativeName("G♯m") == Some("H") && Spelled("G♯m")
  {
    RelativeOfMinor("G♯m", 5, GSharp, H, "H");
  }

  /** `Bm` and `H` are missing from the table, which writes B major as `B`. */
  lemma BmMissing()
    ensures "Bm" !in Tonalities
  {
  }

  lemma HMissing()
    ensures "H" !in Tonalities
  {
  }

  /** The signatures the table gives the names above. */
  lemma SignaturesOfRelatives()
    ensures Tonalities["Fm"] == -4 && Tonalities["H♭"] == -2
    ensures Tonalities["B"] == 5 && Tonalities["Gm"] == -2
  {
  }

  /** The eleven pairs of relative tonalities on which the relative leads back to the name. */
  lemma RelativeRoundTrips()
    ensures RoundTrip("C♭") && RoundTrip("A♭m") && RoundTrip("G♭") && RoundTrip("E♭m")
    ensures RoundTrip("A♭") && RoundTrip("Fm") && RoundTrip("E♭") && RoundTrip("Cm")
    ensures RoundTrip("F") && RoundTrip("Dm") && RoundTrip("C") && RoundTrip("Am")
    ensures RoundTrip("G") && RoundTrip("Em") && RoundTrip("D") && RoundTrip("Hm")
    ensures RoundTrip("A") && RoundTrip("F♯m") && RoundTrip("E") && RoundTrip("C♯m")
    ensures RoundTrip("F♯") && RoundTrip("D♯m")
  {
    RelativePairCFlat();
    RelativePairGFlat();
    RelativePairAFlat();
    RelativePairEFlat();
    RelativePairF();
    RelativePairC();
    RelativePairG();
    RelativePairD();
    RelativePairA();
    RelativePairE();
    RelativePairFSharp();
  }

  /** The eight names on which the relative does not lead back. */
  lemma RelativeMismatches()
    ensures !RoundTrip("D♭") && !RoundTrip("C♯") && !RoundTrip("Gm") && !RoundTrip("B")
    ensures !RoundTrip("G♯m") && !RoundTrip("H♭") && !RoundTrip("H♭m") && !RoundTrip("A♯m")
  {
    RelativeOfDFlat();
    RelativeOfCSharp();
    RelativeOfGMinor();
    RelativeOfB();
    RelativeOfGSharpMinor();
    RelativeOfHFlat();
    RelativeOfHFlatMinor();
    RelativeOfASharpMinor();
    BmMissing();
    HMissing();
    SignaturesOfRelatives();
  }

  /**
   * Each of the other twenty-seven names of the table has its tonic in its
   * alphabet, so its chromatic scale starts on the tonic.
   */
  lemma TonicsSpelled()
    ensures Spelled("C♭") && Spelled("A♭m") && Spelled("G♭") && Spelled("E♭m") && Spelled("A♭")
    ensures Spelled("Fm") && Spelled("E♭") && Spelled("Cm") && Spelled("F") && Spelled("Dm")
    ensures Spelled("C") && Spelled("Am") && Spelled("G") && Spelled("Em") && Spelled("D")
    ensures Spelled("Hm") && Spelled("A") && Spelled("F♯m") && Spelled("E") && Spelled("C♯m")
    ensures Spelled("F♯") && Spelled("D♯m") && Spelled("D♭") && Spelled("C♯") && Spelled("Gm")
    ensures Spelled("B") && Spelled("G♯m")
  {
    RelativePairCFlat();
    RelativePairGFlat();
    RelativePairAFlat();
    RelativePairEFlat();
    RelativePairF();
    RelativePairC();
    RelativePairG();
    RelativePairD();
    RelativePairA();
    RelativePairE();
    RelativePairFSharp();
    RelativeOfDFlat();
    RelativeOfCSharp();
    RelativeOfGMinor();
    RelativeOfB();
    RelativeOfGSharpMinor();
  }

  /** Only H♭, H♭m and A♯m have a tonic that their alphabet cannot spell. */
  lemma TonicsMissing()
    ensures !Spelled("H♭") && !Spelled("H♭m") && !Spelled("A♯m")
  {
    RelativeOfHFlat();
    RelativeOfHFlatMinor();
    RelativeOfASharpMinor();
  }

  /** The scale read off a chromatic scale that runs through `KeyAlphabet(signature)` from `t`. */
  lemma ScaleOfRotation(chromatic: seq<Option<Note>>, signature: int, t: Note, p: seq<int>, expected: seq<Note>)
    requires -7 <= signature <= 7 && |chromatic| == 12
    requires forall k :: 0 <= k < 12 ==> chromatic[k] == Some(KeyAlphabet(signature)[(Semitone(t) + k) % 12])
    requires |p| == 8 && |expected| == 8
    requires forall k :: 0 <= k < 8 ==>
               0 <= p[k] < 12 && KeyAlphabet(signature)[(Semitone(t) + p[k]) % 12] == expected[k]
    ensures ScaleFrom(chromatic, p) == Lift(expected)
  {
  }

  /** The scale a listed name gets, given the alphabet's notes at the pattern's offsets from its tonic. */
  lemma ScaleOfName(name: string, signature: int, t: Note, p: seq<int>, expected: seq<Note>)
    requires name in Tonalities && Tonalities[name] == signature
    requires NoteNamed(Tonic(name)) == Some(t) && KeyAlphabet(signature)[Semitone(t)] == t
    requires |p| == 8 && |expected| == 8
    requires forall k :: 0 <= k < 8 ==>
               0 <= p[k] < 12 && KeyAlphabet(signature)[(Semitone(t) + p[k]) % 12] == expected[k]
    ensures ScaleFrom(ChromaticFor(name), p) == Lift(expected)
  {
    KeyAlphabetOf(signature);
    SpelledChromatic(name, signature, t);
    ScaleOfRotation(ChromaticFor(name), signature, t, p, expected);
  }

  /** A natural minor: A H C D E F G. */
  lemma NaturalScaleAMinor()
    ensures ScaleFrom(ChromaticFor("Am"), Pattern(Natural, true)) == Lift([A, H, C, D, E, F, G, A])
  {
    assert KeyAlphabet(0) == [A, B, H, C, CSharp, D, DSharp, E, F, FSharp, G, GSharp];
    ScaleOfName("Am", 0, A, Pattern(Natural, true), [A, H, C, D, E, F, G, A]);
  }

  /** A harmonic minor raises the seventh to G♯. */
  lemma HarmonicScaleAMinor()
    ensures ScaleFrom(ChromaticFor("Am"), Pattern(Harmonic, true)) == Lift([A, H, C, D, E, F, GSharp, A])
  {
    assert KeyAlphabet(0) == [A, B, H, C, CSharp, D, DSharp, E, F, FSharp, G, GSharp];
    ScaleOfName("Am", 0, A, Pattern(Harmonic, true), [A, H, C, D, E, F, GSharp, A]);
  }

  /** A melodic minor raises the sixth and the seventh to F♯ and G♯. */
  lemma MelodicScaleAMinor()
    ensures ScaleFrom(ChromaticFor("Am"), Pattern(Melodic, true)) == Lift([A, H, C, D, E, FSharp, GSharp, A])
  {
    assert KeyAlphabet(0) == [A, B, H, C, CSharp, D, DSharp, E, F, FSharp, G, GSharp];
    ScaleOfName("Am", 0, A, Pattern(Melodic, true), [A, H, C, D, E, FSharp, GSharp, A]);
  }

  /** C major: C D E F G A H. */
  lemma NaturalScaleCMajor()
    ensures ScaleFrom(ChromaticFor("C"), Pattern(Natural, false)) == Lift([C, D, E, F, G, A, H, C])
  {
    assert KeyAlphabet(0) == [A, B, H, C, CSharp, D, DSharp, E, F, FSharp, G, GSharp];
    ScaleOfName("C", 0, C, Pattern(Natural, false), [C, D, E, F, G, A, H, C]);
  }

  /** C harmonic major lowers the sixth, which the sharp alphabet spells G♯. */
  lemma HarmonicScaleCMajor()
    ensures ScaleFrom(ChromaticFor("C"), Pattern(Harmonic, false)) == Lift([C, D, E, F, G, GSharp, H, C])
  {
    assert KeyAlphabet(0) == [A, B, H, C, CSharp, D, DSharp, E, F, FSharp, G, GSharp];
    ScaleOfName("C", 0, C, Pattern(Harmonic, false), [C, D, E, F, G, GSharp, H, C]);
  }

  /** The seven degrees of C major, tonic to leading note. */
  lemma DegreesCMajor()
    ensures AllDegrees(ScaleFrom(ChromaticFor("C"), Pattern(Natural, false)))
            == Degrees(Some(C), Some(D), Some(E), Some(F), Some(G), Some(A), Some(H))
  {
    NaturalScaleCMajor();
  }
}
