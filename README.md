# Harmony.js 3.0 in Dafny

Harmony.js is a small JavaScript library for sol-fa calculations. A `Harmony`
object is given the name of a tonality from the circle of fifths, such as
`"C"`, `"F♯m"` or `"E♭"`. From the name it computes, in properties of the
object:

- the key signature (`clefs`);
- the twelve-note chromatic scale starting on the tonic (`chromatic`);
- the natural, harmonic and melodic diatonic scales (`natural`, `harmonic`, `melodic`);
- the degrees of those scales;
- the relative tonality (`relative`).

Note names are German: `B` is B-flat and `H` is B-natural.

## What is modelled

- **Configuration** (`conf.dfy`, module `Conf`). This is the object's fixed
  configuration. A note is a datatype with one constructor per written name, and
  `Name`/`NoteNamed` convert between the two. Every note also has `Semitone`, its
  pitch above A. `Semitone` is the musical reference that the computed alphabets
  and scales are checked against.
- **JavaScript semantics** (`js_values.dfy`, module `JsValues`). Only the pieces
  the library relies on are modelled:
  - a read past the end of an array yields `undefined`, which is `None` of an `Option`;
  - `String(undefined)` is `"undefined"`;
  - the array built-ins `indexOf`, `slice(0, n)` and `splice(i, 1)`.
- **The computation** (`theory.dfy`, module `Theory`). Each step is a function of
  its inputs: the clefs object, the de-duplicated alphabet, the rotation to the
  tonic, the octave expansion, the scales, the degrees and the relative tonality.
  The main facts proved:
  - the two splices leave twelve distinct names, entry k sounding k semitones above A;
  - of each enharmonic pair, the spelling in the clef list survives;
  - once the tonic is found, the chromatic scale rises a semitone at a time from it;
  - each scale follows the textbook step formula of its type;
  - the relative is a minor third up or down.
- **The object** (`harmony.dfy`, module `Harmony`). `Harmony` is a class whose
  fields are the object's properties. Each prototype method is a method that
  changes those fields. Each method that models a prototype method of the
  source has a contract in two parts:
  - it ties the new state to a transition function of the old state;
  - it keeps the invariant that later methods rely on (`Coherent`).

  The exceptions:
  - The constructor ties its state to `Initial` of the argument and establishes the invariant.
  - `DeleteIfTruthy`, `ScaleGet` and `SetScale` give the new state only.
  - `PushRotation` states only the new `chromatic` property. It is the push loop inside `chromatic_scale_get`.
  - `DuplicatesRemoved` is a static method with no state: the splice half of `chromatic_scale_get`.

  `CoherentReady` shows that the invariant meets the `requires` of the methods that read the clefs and the chromatic scale.

  Lemmas state what each transition does. A method's `requires` holds only what
  keeps the JavaScript from reading a property of `undefined`.
- **The thirty names** (`circle_of_fifths.dfy`, module `CircleOfFifths`). This
  takes the model through all thirty names of the table:
  - Twenty-seven tonics are spelled by their own key's alphabet. `H♭`, `H♭m` and
    `A♯m` are not. For those three the chromatic scale opens with an undefined
    slot and then runs up from A.
  - The relative tonality leads back to the starting name, with the same
    signature, for 22 names.
  - It does not for the other eight:
    - `D♭` and `C♯` give `Bm`, which the table lacks;
    - `Gm` and `B` lead to each other, although the table puts 2 flats on `Gm` and 5 sharps on `B`;
    - `G♯m`, `H♭m` and `A♯m` give `H`, which the table lacks;
    - `H♭` gives `Fm` (4 flats), although the table puts 2 flats on `H♭`.
  - Worked examples: the A-minor scales and the C-major scales and degrees.

Where JavaScript's behaviour matters, the model follows the code.
- `main_tonality_get` accepts any name, including one missing from the table.
  Such a name gets the sharp family and no clef list.
- `all_clear` deletes only truthy properties, so an empty `main` survives.
- The minor test `/m/i` is true for any `m` or `M` anywhere in the name.
- `chromatic_scale_get_expanded` treats `octaves || 2` as JavaScript does: 0 and
  absent both mean two octaves, and a negative count gives an empty scale.

## Model

| member | source | states |
|---|---|---|
| Conf.NoteNamed | Harmony.js:36-92 | a string that spells a note is exactly that note's written name |
| Conf.NamesInverse | Harmony.js:36-92 | no two configured notes share a written name, so every note is read back from its name |
| Conf.Semitone | Harmony.js:60-92 | every note sounds one of the twelve pitches above A |
| Conf.Lookup | Harmony.js:95-127 | the table yields a number exactly for its thirty names, and every number is between -7 and 7 |
| JsValues.IndexOf | Harmony.js:304 | `indexOf` is -1 exactly when the value is absent; otherwise it is the value's first position |
| JsValues.Slice | Harmony.js:300 | `slice(0, n)` is the prefix of length min(n, length); a negative n drops the last -n entries, leaving none when -n >= length |
| JsValues.Splice | Harmony.js:263 | `splice(i, 1)` removes entry i and shifts the later entries down by one |
| Theory.ClefsFor | Harmony.js:209-239 | the clefs object always pairs the flat family with ♭ or the sharp family with ♯ |
| Theory.ClefsFromSignature | Harmony.js:216-237 | a signature n gives abs(n) clefs, flats exactly when n < 0, and a list of the first abs(n) accidentals in key-signature order, none for n = 0 |
| Theory.UnknownNameClefs | Harmony.js:212-225 | a name missing from the table gets no number, the sharp family and no list |
| Theory.FlatSplices | Harmony.js:257-276 | the two flat-side splices and the cut to 12 leave A B (H or C♭) C D♭ D E♭ (E or F♭) F G♭ G A♭ |
| Theory.SharpSplices | Harmony.js:277-300 | the two sharp-side splices and the cut to 12 leave A B H (C or H♯) C♯ D D♯ E (F or E♯) F♯ G G♯ |
| Theory.SurvivorsFromA | Harmony.js:60-92 | every survivor list is one octave from A, entry k sounding k semitones up, drawn from its family's alphabet |
| Theory.DeduplicateIsSurvivors | Harmony.js:257-300 | the splices pick the survivor list according to which of C♭/F♭ or H♯/E♯ the clef list holds |
| Theory.FlatMembership | Harmony.js:258-276 | H survives exactly when C♭ does not, and E exactly when F♭ does not |
| Theory.SharpMembership | Harmony.js:278-296 | C survives exactly when H♯ does not, and F exactly when E♯ does not |
| Theory.DeduplicateSurvivors | Harmony.js:249-300 | the de-duplicated alphabet has 12 distinct names rising by semitones from A, all from the family's alphabet; of each enharmonic pair, the spelling listed among the clefs survives, and the plain one otherwise |
| Theory.ClefPositions | Harmony.js:38-56 | C♭ is among the first m flats exactly when m >= 6, F♭ when m = 7, E♯ among the sharps when m >= 6, H♯ when m = 7 |
| Theory.KeyAlphabetOf | Harmony.js:209-300 | for each signature in the table, the alphabet left after the splices is the key's alphabet, one octave from A |
| Theory.Tonic | Harmony.js:303 | the tonic is a prefix of the name: its first character, plus the second exactly when that is ♯ or ♭ |
| Theory.Position | Harmony.js:304 | the search on written names gives the first entry spelled like the tonic, or -1 exactly when none is |
| Theory.Rotation | Harmony.js:305-317 | the push loop collects exactly twelve slots |
| Theory.RotationFound | Harmony.js:302-317 | with the tonic at beg, the twelve slots are the alphabet rotated to beg; slot k is entry (beg + k) mod 12, a permutation of the alphabet |
| Theory.RotationMissing | Harmony.js:304-317 | with the tonic missing, the first slot reads index -1 (undefined) and then the alphabet's first eleven entries follow |
| Theory.UnnamedTonic | Harmony.js:303-304 | a tonic that spells no note is never found in the alphabet |
| Theory.RotationRises | Harmony.js:302-317 | rotating an octave from A gives twelve distinct defined slots, each a semitone above the one before |
| Theory.ChromaticShape | Harmony.js:247-319 | the chromatic scale always has 12 slots. If the tonic is spelled, it starts on it, rises by semitones and permutes the alphabet; if not, it is undefined followed by the alphabet's first 11 |
| Theory.RepeatAt | Harmony.js:337-339 | n concatenated copies of a 12-slot octave have 12n slots, slot i repeating slot i mod 12 |
| Theory.ExpandShape | Harmony.js:329-344 | the expanded scale has 12 slots per octave asked for, slot i repeating chromatic slot i mod 12 |
| Theory.ExpandTwice | Harmony.js:329-344 | only the first octave is read, so a second expansion equals one expansion of the original |
| Theory.PatternSteps | Harmony.js:352-439 | the scales read the textbook step formulas: the major and minor scales, harmonic raising the minor seventh or lowering the major sixth, melodic raising the minor sixth and seventh |
| Theory.ScaleFrom | Harmony.js:357-366 | a scale has one slot per index of its pattern |
| Theory.ScaleCloses | Harmony.js:352-439 | every scale has eight slots and ends on its first, the chromatic scale's first slot |
| Theory.PatternRises | Harmony.js:352-439 | every scale reads eight chromatic slots between 0 and 11, strictly rising up to the seventh degree |
| Theory.ScaleOnTonic | Harmony.js:352-439 | on a chromatic scale that rises by semitones and has distinct slots, every degree is defined and sits its pattern offset above the tonic, and the seven degrees are distinct |
| Theory.BasicDegreesAgree | Harmony.js:451-464 | tonic, subdominant and dominant are chromatic slots 0, 5 and 7 whatever the scale type |
| Theory.AllDegreesOffsets | Harmony.js:475-482 | each of the seven degrees reads the chromatic slot of its type: mediant 3 or 4, submediant 8 or 9, leading note 10 or 11 |
| Theory.RelativeFromScale | Harmony.js:190-201 | the relative major of a minor key is its natural scale's mediant; the relative minor of a major key is its natural submediant plus `m` |
| Theory.RelativeInterval | Harmony.js:190-201 | on a chromatic scale that rises by semitones, the relative tonic is a minor third above a minor tonic, or a minor third below a major one |
| Harmony.ClearAllCleared | Harmony.js:136-156 | the nine conditional deletions, in order, remove every computed property, except an empty `main` or `relative` |
| Harmony.ClearedIdempotent | Harmony.js:136-156 | clearing twice is clearing once; a cleared object is coherent and has no truthy `main` or `relative` |
| Harmony.MainTonalityFields | Harmony.js:166-182 | for a non-empty name: `main` is the name, `minor` is true exactly when it has an m or M, clefs and chromatic scale are the name's own, no scale is left, and the object is coherent |
| Harmony.MainTonalityEmpty | Harmony.js:166-182 | an empty name is stored after clearing, but no clefs or chromatic scale are computed |
| Harmony.MainTonalityUnknown | Harmony.js:169-180 | a name missing from the table is accepted, with sharp clefs, no list and the chromatic scale of the plain sharp alphabet |
| Harmony.MainTonalityChromatic | Harmony.js:166-182 | after setting a name, the chromatic scale has 12 slots; if the alphabet spells the tonic, the scale starts on it, rises by semitones and is distinct |
| Harmony.InitialCoherent | Harmony.js:14-21 | a new object is coherent; it stays empty for a falsy name and holds the name otherwise |
| Harmony.ExpandedTwice | Harmony.js:329-344 | expanding the stored scale twice, the first time by at least one octave, is expanding it once |
| Harmony.ScaleBuiltFields | Harmony.js:352-439 | a scale getter keeps the object coherent and changes only its own scale. It builds exactly when there is a main tonality, or for melodic a minor one, and otherwise leaves the state as it is. A built scale is the pattern of its type read off the chromatic scale, with no degrees, 8 slots, closing on the chromatic scale's first |
| Harmony.DegreesScale | Harmony.js:451-464 | an existing scale is kept, an absent one is built first; the degrees are that scale's basic degrees, and other scales are untouched |
| Harmony.AllDegreesFresh | Harmony.js:475-482 | on a newly built scale, the seven degrees read the chromatic slots of the type's pattern |
| Harmony.RelativeTonalityFields | Harmony.js:190-201 | without a main tonality nothing changes; otherwise only `relative` changes, and it is a truthy string for a major tonality |
| Harmony.CoherentReady | Harmony.js:247-439 | a coherent object has the clefs the chromatic scale reads, and the chromatic scale that the scale getters and the relative tonality read |
| Harmony.Harmony.constructor | Harmony.js:14-21 | the new object is `main_tonality_get` of a truthy name on an empty object, otherwise empty, and is coherent |
| Harmony.Harmony.DeleteIfTruthy | Harmony.js:152-154 | the property is deleted if truthy; nothing else changes |
| Harmony.Harmony.AllClear | Harmony.js:136-156 | the loop over the nine names leaves the cleared object, which is coherent |
| Harmony.Harmony.MainTonalityGet | Harmony.js:166-182 | clear, store the name and the minor flag, then compute clefs and chromatic scale; the result is coherent |
| Harmony.Harmony.TonalityClefsGet | Harmony.js:209-239 | with a main tonality, clefs become the name's clefs object; coherence is kept |
| Harmony.Harmony.ChromaticScaleGet | Harmony.js:247-319 | with a main tonality, the chromatic scale becomes the de-duplicated alphabet rotated to the tonic's position; coherence is kept |
| Harmony.Harmony.PushRotation | Harmony.js:309-317 | the push loop leaves exactly the twelve-slot rotation from `beg` (its invariant is the prefix pushed so far) |
| Harmony.Harmony.DuplicatesRemoved | Harmony.js:249-300 | the splices and the cut leave exactly the de-duplicated alphabet |
| Harmony.Harmony.ChromaticScaleGetExpanded | Harmony.js:329-344 | the concatenation loop stores `octaves or 2` copies of the first octave; coherence is kept |
| Harmony.Harmony.NaturalScaleGet | Harmony.js:352-380 | with a main tonality, `natural` becomes the major or minor natural scale read off the chromatic scale |
| Harmony.Harmony.HarmonicScaleGet | Harmony.js:388-416 | with a main tonality, `harmonic` becomes the harmonic scale read off the chromatic scale |
| Harmony.Harmony.MelodicScaleGet | Harmony.js:424-439 | for a minor tonality, `melodic` becomes the melodic minor scale read off the chromatic scale |
| Harmony.Harmony.ScaleGet | Harmony.js:456 | the getter named by the type is the one called |
| Harmony.Harmony.SetScale | Harmony.js:460-463 | only the scale property of the type is replaced |
| Harmony.Harmony.TonalityDegreesGet | Harmony.js:451-464 | the scale is built if absent, then its degrees become tonic, subdominant and dominant; coherence is kept |
| Harmony.Harmony.AllDegreesGet | Harmony.js:475-482 | after the basic degrees, supertonic, mediant, submediant and leading note are added; coherence is kept |
| Harmony.Harmony.RelativeTonalityGet | Harmony.js:190-201 | with a main tonality, `relative` becomes chromatic slot 3 for minor, or slot 9 plus `m` for major |
| CircleOfFifths.RelativeNameStored | Harmony.js:166-201 | the relative tonality that setting a name and then asking for its relative stores |
| CircleOfFifths.RotationAt | Harmony.js:302-317 | when the tonic spells a note of an octave-from-A alphabet, slot k is the alphabet's note k semitones above the tonic |
| CircleOfFifths.SpelledChromatic | Harmony.js:247-319 | for a listed name whose alphabet holds its tonic, chromatic slot k is the key alphabet's note k semitones above the tonic |
| CircleOfFifths.SpelledTonic | Harmony.js:303-304 | a tonic whose note stands at its own pitch in the key alphabet is found there |
| CircleOfFifths.RelativeOfMajor | Harmony.js:197-198 | a spelled major name's relative is the key alphabet's note nine semitones above the tonic, plus `m` |
| CircleOfFifths.RelativeOfMinor | Harmony.js:194 | a spelled minor name's relative is the key alphabet's note three semitones above the tonic |
| CircleOfFifths.RelativePair | Harmony.js:95-127 | a major and a minor name of one signature a minor third apart, both spelled, are each other's relative and complete the round trip |
| CircleOfFifths.RelativePairCFlat | Harmony.js:97-98 | C♭ and A♭m are spelled and each other's relative |
| CircleOfFifths.RelativePairGFlat | Harmony.js:99-100 | G♭ and E♭m are spelled and each other's relative |
| CircleOfFifths.RelativePairAFlat | Harmony.js:103-104 | A♭ and Fm are spelled and each other's relative |
| CircleOfFifths.RelativePairEFlat | Harmony.js:105-106 | E♭ and Cm are spelled and each other's relative |
| CircleOfFifths.RelativePairF | Harmony.js:109-110 | F and Dm are spelled and each other's relative |
| CircleOfFifths.RelativePairC | Harmony.js:111-112 | C and Am are spelled and each other's relative |
| CircleOfFifths.RelativePairG | Harmony.js:113-114 | G and Em are spelled and each other's relative |
| CircleOfFifths.RelativePairD | Harmony.js:115-116 | D and Hm are spelled and each other's relative |
| CircleOfFifths.RelativePairA | Harmony.js:117-118 | A and F♯m are spelled and each other's relative |
| CircleOfFifths.RelativePairE | Harmony.js:119-120 | E and C♯m are spelled and each other's relative |
| CircleOfFifths.RelativePairFSharp | Harmony.js:123-124 | F♯ and D♯m are spelled and each other's relative |
| CircleOfFifths.UnspelledChromatic | Harmony.js:302-317 | a listed name whose tonic spells no note has an unspelled tonic and the chromatic scale undefined followed by its key alphabet's first 11 |
| CircleOfFifths.RelativeOfUnspelledMajor | Harmony.js:197-198 | an unspelled major name reads slot 9, the key alphabet's entry 8, plus `m` |
| CircleOfFifths.RelativeOfUnspelledMinor | Harmony.js:194 | an unspelled minor name reads slot 3, the key alphabet's entry 2 |
| CircleOfFifths.RelativeOfHFlat | Harmony.js:107 | H♭ is unspelled and its relative is Fm |
| CircleOfFifths.RelativeOfHFlatMinor | Harmony.js:102 | H♭m is unspelled and its relative is H |
| CircleOfFifths.RelativeOfASharpMinor | Harmony.js:126 | A♯m is unspelled and its relative is H |
| CircleOfFifths.RelativeOfDFlat | Harmony.js:101 | D♭ is spelled and its relative is Bm |
| CircleOfFifths.RelativeOfCSharp | Harmony.js:125 | C♯ is spelled and its relative is Bm |
| CircleOfFifths.RelativeOfGMinor | Harmony.js:108 | Gm is spelled and its relative is B |
| CircleOfFifths.RelativeOfB | Harmony.js:121 | B is spelled and its relative is Gm |
| CircleOfFifths.RelativeOfGSharpMinor | Harmony.js:122 | G♯m is spelled and its relative is H |
| CircleOfFifths.BmMissing | Harmony.js:95-127 | the table has no entry `Bm` |
| CircleOfFifths.HMissing | Harmony.js:95-127 | the table has no entry `H` |
| CircleOfFifths.SignaturesOfRelatives | Harmony.js:95-127 | Fm has 4 flats and H♭ 2; B has 5 sharps and Gm 2 flats |
| CircleOfFifths.RelativeRoundTrips | Harmony.js:95-127 | for 22 of the 30 names, the relative is listed with the same signature and leads back to the name |
| CircleOfFifths.RelativeMismatches | Harmony.js:95-127 | for the other 8 names (D♭, C♯, Gm, B, G♯m, H♭, H♭m, A♯m), the round trip fails |
| CircleOfFifths.TonicsSpelled | Harmony.js:303-304 | 27 of the 30 names have their tonic in their key alphabet |
| CircleOfFifths.TonicsMissing | Harmony.js:303-304 | H♭, H♭m and A♯m do not |
| CircleOfFifths.ScaleOfRotation | Harmony.js:357-366 | a scale read off a chromatic scale that rotates the key alphabet to a tonic is the alphabet's notes at the pattern's offsets |
| CircleOfFifths.ScaleOfName | Harmony.js:352-439 | a spelled name's scale is the key alphabet's notes at the pattern's offsets above its tonic |
| CircleOfFifths.NaturalScaleAMinor | Harmony.js:357-366 | A natural minor is A H C D E F G A |
| CircleOfFifths.HarmonicScaleAMinor | Harmony.js:393-402 | A harmonic minor is A H C D E F G♯ A |
| CircleOfFifths.MelodicScaleAMinor | Harmony.js:428-437 | A melodic minor is A H C D E F♯ G♯ A |
| CircleOfFifths.NaturalScaleCMajor | Harmony.js:368-377 | C major is C D E F G A H C |
| CircleOfFifths.HarmonicScaleCMajor | Harmony.js:404-413 | C harmonic major is C D E F G G♯ H C: the lowered sixth is spelled G♯ in the sharp alphabet |
| CircleOfFifths.DegreesCMajor | Harmony.js:475-482 | the degrees of C major, tonic to leading note, are C D E F G A H |

## Left out

- Harmony.Harmony.ChromaticScaleGet: requires the clefs of a truthy `main` to be present. Without them the source reads a property of `undefined` and throws; that error path is not modelled.
- Harmony.Harmony.ChromaticScaleGetExpanded: requires a chromatic scale to be present, because the source throws without one.
- Harmony.Harmony.NaturalScaleGet, Harmony.Harmony.HarmonicScaleGet, Harmony.Harmony.MelodicScaleGet and Harmony.Harmony.RelativeTonalityGet: require the chromatic scale whenever they read it. Without it the source throws.
- Harmony.Harmony.TonalityDegreesGet and Harmony.Harmony.AllDegreesGet: require the scale property to exist after the getter call. A melodic request on a major tonality throws in the source.
- Harmony.Harmony.AllDegreesGet: takes a scale type, not an optional one. `all_degrees_get()` without a type builds the natural degrees and then throws on `this[undefined]`.
- Dispatch by `this[type + '_scale_get']` is a match on a three-valued scale type. A type string naming no getter throws in the source and is not modelled.
- Constructor and `main_tonality_get` arguments are strings (or absent). Non-string values, and the regular expressions on them, are not modelled.
- The tonic extraction `/(^.(♯|♭)?).*/` stops at a line terminator. The model takes the first character and a following ♯ or ♭ wherever a line terminator occurs.
- JavaScript prototype names such as `"constructor"` yield inherited values from the table lookup. The model treats every name outside the thirty as absent. The clefs computed are the same, except the stored `num`.
- The `!== false` guard of `main_tonality_get` is always true for the table, so it has no second branch.
- The `chords` property is never set by any method, so clearing it is a no-op.
- Octave counts are integers (or absent). Fractional and non-numeric counts, which `octaves || 2` and the loop's `<` would accept, are not modelled.
- The `degrees` property is an array with named properties in the source. Here it is a record of seven optional notes.
- The `natural`, `flat`/`flats` and `sharp`/`sharps` naming of the configuration objects is not modelled as string-keyed objects. Each lookup `_conf.clefs[type + 's']` is a function of the family name.
- The constants `FlatSign`, `SharpSign` and `NaturalSign` are kept. `NaturalSign` is never read by any method.
