# Face shape and dominant emotion

A model of the two pure decision functions behind the face-expression
detector page. `script.js` holds both:

- `classifyFaceShape(jaw, faceContour)` measures four distances between
  landmark points of one detected face. It forms three ratios from them and
  walks a first-match-wins chain of rules to one of six shapes: Round,
  Square, Oval, Heart, Diamond or Undetermined. It is modelled in module
  `FaceShape` (`face_shape.dfy`).
- `getDominantEmotion(expressions)` scans the expression probabilities in
  enumeration order. It keeps the first entry with the strictly largest
  positive value and shows its name, or "Neutral" when nothing was kept. It
  is modelled in module `Emotion` (`emotion.dfy`).

Modelling choices:

- **Coordinates and probabilities** are `real`s.
- **Division by zero** is modelled exactly as the browser does it. A ratio
  is a `Ratio`: `Finite`, `PosInfinity`, `NegInfinity` or `NaN`. Every
  comparison against `NaN` is false, as in IEEE 754. So no input is
  excluded by a precondition.
- **Missing landmarks.** Reading `.x` of a landmark that does not exist
  throws in the source. The model returns `MissingPoint(outline, index)`,
  which names the first such read in JavaScript evaluation order.
- **Text output.** The classifier's text is `Name(shape)`.
- **Expression entries** are an ordered sequence of (name, value) pairs.
  The order is the order `Object.entries` yields them.

Two consequences of the code worth stating:

- **Jaw points needed.** script.js:69-71 reads jaw points 0, 3,
  floor(len/2), len-4 and len-1, so 4 points suffice (`HasLandmarks`).
- **All-zero measurements.** With all four distances zero every ratio is
  NaN and every ratio rule fails, yet line 82 compares raw coordinates, so
  such a face is Heart whenever jaw[0].x < jaw[floor(len/2)].x
  (`DegenerateFaceIsHeartOrUndetermined`, `DegenerateHeartWitness`).

## Model

| member | source | states |
|---|---|---|
| FaceShape.Classify | script.js:68-85 | A shape is returned exactly when jaw has at least 4 points and the contour has at least 27. Otherwise the result names the first missing point read: jaw 0 for an empty jaw, jaw 3 for 1 to 3 jaw points, contour 17 or contour 26. Any shape returned is the first rule of the chain that fires on the measured ratios and the Heart cue. |
| FaceShape.Measure | script.js:69-72 | The four distances are non-negative. Each is zero exactly when its two landmark coordinates coincide: jaw ends (x), first jaw point and chin (y), cheekbones (x), forehead corners (x). |
| FaceShape.Divide | script.js:74-76 | A quotient is finite exactly when the denominator is non-zero. Otherwise it is +Infinity, -Infinity or NaN as the numerator is positive, negative or zero. |
| FaceShape.Abs | script.js:69-72 | `Math.abs`: the result is non-negative and is either the argument or its negation. |
| FaceShape.Middle | script.js:70 | `Math.floor(jaw.length / 2)`: a valid jaw index i with 2i <= len < 2i + 2. |
| FaceShape.Below | script.js:79-83 | A `<` test against a finite threshold: false for NaN and +Infinity, true for -Infinity, and the ordinary comparison on a finite ratio. |
| FaceShape.Above | script.js:79-83 | A `>` test against a finite threshold: false for NaN and -Infinity, true for +Infinity, and the ordinary comparison on a finite ratio. |
| FaceShape.BelowExcludesAbove | script.js:79-83 | No ratio is both below and above one threshold; it is neither exactly when it is NaN or equals the threshold. |
| FaceShape.RatiosOf | script.js:74-76 | Each ratio is finite exactly when its denominator distance is non-zero, and NaN exactly when both of its distances are zero; with non-negative distances no ratio is -Infinity. |
| FaceShape.HeartCue | script.js:82 | The Heart cue needs at least two jaw points and the first jaw point to differ from the chin point. |
| FaceShape.Decide | script.js:79-84 | The chain's answer is a rule that fires, and no rule earlier in the order Round, Square, Oval, Heart, Diamond, Undetermined fires. |
| FaceShape.FirstToFireIsUnique | script.js:79-84 | Any shape whose rule is the first to fire is the chain's answer, so the rule order alone determines the result. |
| FaceShape.RatioRulesOverlap | script.js:79-81 | Round never overlaps Square or Oval. Square and Oval both fire exactly when jaw-to-height exceeds 1.5 and cheek-to-forehead lies strictly between 1.4 and 1.5; there the earlier Square wins. |
| FaceShape.EveryShapeIsReachable | script.js:79-84 | For each of the six shapes, some non-negative measurements and Heart cue lead to it, so no rule is dead. |
| FaceShape.Name | script.js:79-84 | Every shape is shown as one of the six shape texts. |
| FaceShape.NamesAreDistinct | script.js:79-84 | Two shapes are shown as the same text exactly when they are the same shape. |
| FaceShape.ClassifyReadsOnlyListedPoints | script.js:69-72 | Two inputs give the same result when they have the same lengths and agree on the landmark coordinates the classifier reads (including the chin x read by the Heart rule). |
| FaceShape.DivideScaled | script.js:74-76 | Multiplying numerator and denominator by the same positive factor leaves the quotient unchanged, including the infinite and NaN cases. |
| FaceShape.RatiosIgnoreScale | script.js:74-76 | Scaling all four distances by one positive factor leaves the three ratios unchanged. |
| FaceShape.DecideIgnoresScale | script.js:74-84 | The chain picks the same shape for measurements scaled by any positive factor, so the answer does not depend on face size. |
| FaceShape.ClassifyIgnoresPosition | script.js:68-85 | Translating every landmark of both outlines by the same offset leaves the result unchanged, missing-point outcomes included. |
| FaceShape.WorkedExampleIsOval | script.js:68-85 | A 9-point jaw 100 wide and 40 high, with cheekbones 60 apart and forehead 80 wide, is classified Oval. |
| FaceShape.DegenerateFaceIsHeartOrUndetermined | script.js:79-84 | When all four distances are zero, the face is Heart if the first jaw point lies left of the chin and Undetermined otherwise. |
| FaceShape.DegenerateHeartWitness | script.js:74-82 | A concrete 4-point degenerate face has all three ratios NaN and is still classified Heart. |
| Emotion.Scan | script.js:89-96 | The running maximum is non-negative and at least every value scanned. It is 0 only in the start state. When positive, it is the (name, value) of an entry of the input. |
| Emotion.DominantEmotion | script.js:88-98 | With no positive entry the result is "Neutral". Any other result is the name of a positive entry. |
| Emotion.ScanSelectsFirstMaximum | script.js:91-95 | When entry k is the earliest positive maximum, the scan ends holding exactly entry k: a later entry with an equal value never replaces it. |
| Emotion.FirstMaximumExists | script.js:91-95 | Whenever some entry is positive, an earliest positive maximum exists. |
| Emotion.DominantEmotionIsFirstMaximum | script.js:88-98 | Stated without the scan: "Neutral" when no entry is positive, otherwise the shown name of the earliest maximal entry. Any other result is that entry's name. |
| Emotion.GetDominantEmotion | script.js:88-98 | The imperative loop returns "Neutral" when no entry is positive. Otherwise it returns the shown name of the earliest entry holding the largest value, and any result other than "Neutral" is that entry's name. |
| Emotion.Shown | script.js:97 | The shown text is never empty, and a non-empty name is shown as itself. |
| Emotion.EmptyLabelShowsFallback | script.js:97 | An earliest maximum with an empty name still shows "Neutral", because the empty string is falsy. |
| Emotion.WorkedExamples | script.js:88-98 | An empty mapping shows "Neutral", and so does an all-zero one. 0.9 against 0.1 shows the larger. An exact tie 0.5/0.5 shows the earlier entry. |

## Left out

- Model loading, webcam start-up, the 100 ms detection loop, canvas drawing and the on-screen labels (script.js:1-65): I/O and timers around the two decision functions.
- Floating-point rounding: coordinates, distances and ratios are exact reals. Only the IEEE 754 treatment of zero denominators (infinities, NaN) is modelled.
- Landmark coordinates that are themselves NaN or infinite, and NaN probabilities: the model takes finite coordinates and values.
- Enumeration order of `Object.entries`: the entries arrive as an ordered sequence. The model does not derive that order from object property rules.
- A thrown error for a missing landmark is modelled as a `MissingPoint` result. The caller's `try`/`catch` and logging are not modelled.
- FaceShape.DecideIgnoresScale: scale invariance is stated on the four measured distances, not on landmark points scaled by a common factor. The point-level statement needs products of coordinates and the factor, which the model keeps out of its proofs.
