# Loom PWA core, modelled in Dafny

Loom is a progressive web app for field work in agriculture. This project models the logic at its core:

- The water-strip classifier (`waterAnalysis.ts`). It grades a sample by how many of pH, alkalinity and hardness lie in their optimal ranges. It also produces the Spanish recommendation list and the quality colour.
- The older two-parameter classifier (`waterAnalysisService.ts`). It uses hardness in dGH and pH, with nested bands and a fixed three-line recommendation list.
- The analysis history kept under one browser-storage key (`analysisStorage.ts`):
  - read newest first, by descending id;
  - save by appending;
  - look up by id, with recommendations recomputed when the record has none;
  - delete by id.
- The history page (`WaterHistoryPage.tsx`). It keeps its own sorted copy of the history, deletes from the list it shows and writes that list back. It also has its own correction test and quality badge.
- The quality badge helpers (`Badge.tsx`).
- The mix calculator page (`MixPage.tsx`):
  - total water is hectares times litres per hectare;
  - each product's total is its dose times the total water;
  - a shake counter submits the form at five shakes;
  - chemical rows can be added and removed.
- The accelerometer hook (`useAccelerometer.ts`). It holds readings, permission and error text, and detects shakes from successive motion events.
- The parameter scale (`ParameterScale.tsx`). It places the marker and the optimal band in percent of the bar and computes the six scale marks.
- The tilt ball (`AccelerometerBall.tsx`). It moves by twice the tilt each frame, with y inverted, and is clamped to [5, 95].

Layout:

- There is one module per source file: `WaterAnalysis`, `LegacyWaterAnalysis`, `AnalysisStorage`, `WaterHistoryPage`, `Badge`, `MixPage`, `Accelerometer`, `ParameterScale` and `AccelerometerBall`.
- Two support modules complete it. `H2oTypes` holds the record types of `types.ts` and the four quality tiers. `Wrappers` holds `Option`, which stands for a value that may be `null` or `undefined`.
- State the source updates in place is a `class`:
  - the storage slot;
  - the history page's list;
  - the mix page's state;
  - the hook's state and refs;
  - the ball's position.
- Pure logic is functions and lemmas.
- The recommendation push sequences have no loop. They are methods proved equal to a specification function.
- The source's loops are methods whose loop invariants prove them against a specification function:
  - the `find` in the lookup;
  - the scale-mark loop;
  - the animation loop.
- All numbers are real numbers. Times are integers in milliseconds.
- The clock, random values and the platform's permission API are parameters.

## Model

| member | source | states |
|---|---|---|
| H2oTypes.ParseQuality | src/modules/h2o/types.ts:7 | a tier read from a string is the tier that string names |
| H2oTypes.ParseQualityName | src/modules/h2o/types.ts:7 | every tier's name reads back as that tier |
| H2oTypes.ParseQualityComplete | src/modules/h2o/types.ts:7 | a string reads as no tier exactly when it is none of the four tier names |
| WaterAnalysis.RangesWellFormed | src/modules/h2o/services/waterAnalysis.ts:4-29 | each parameter range has min ≤ optimalMin ≤ optimalMax ≤ max, with pH [6,7], alkalinity [50,150] and hardness [0,150] |
| WaterAnalysis.CountTrue | src/modules/h2o/services/waterAnalysis.ts:71 | the number of true flags is at most the length; it equals the length iff all flags hold, and is 0 iff none holds |
| WaterAnalysis.CountTrueMonotone | src/modules/h2o/services/waterAnalysis.ts:71 | turning flags on never lowers the count |
| WaterAnalysis.DetermineQuality | src/modules/h2o/services/waterAnalysis.ts:64-77 | the tier's rank (poor 0 … excellent 3) is the number of parameters inside their inclusive optimal range; excellent iff all three are, poor iff none is |
| WaterAnalysis.MovingIntoOptimalNeverLowersQuality | src/modules/h2o/services/waterAnalysis.ts:67-76 | moving any parameters into their optimal range never lowers the tier |
| WaterAnalysis.Recommendations | src/modules/h2o/services/waterAnalysis.ts:34-59 | the list has one to three messages |
| WaterAnalysis.RecommendationsOrdered | src/modules/h2o/services/waterAnalysis.ts:38-52 | at most one message per parameter, ordered pH, then alkalinity, then hardness, then the fallback |
| WaterAnalysis.RecommendationsMessages | src/modules/h2o/services/waterAnalysis.ts:38-52 | each message is present iff its threshold is crossed (pH < 6, pH > 7, alkalinity < 50, alkalinity > 150, hardness > 150); so pH-low and pH-high exclude each other, and there is no low-hardness message |
| WaterAnalysis.RecommendationsCatalogue | src/modules/h2o/services/waterAnalysis.ts:54-56 | the "optimal" message appears only alone, and every message is one of the six fixed texts |
| WaterAnalysis.GetRecommendations | src/modules/h2o/services/waterAnalysis.ts:34-59 | the pushes build exactly the list `Recommendations` describes |
| WaterAnalysis.NeedsCorrection | src/modules/h2o/services/waterAnalysis.ts:100-102 | no correction is needed exactly when pH and alkalinity lie in their optimal ranges and hardness is at most its optimal maximum; the lower hardness bound is not checked |
| WaterAnalysis.FallbackIffNoCorrection | src/modules/h2o/services/waterAnalysis.ts:54-56 | the list is the lone "optimal" message exactly when needsCorrection is false |
| WaterAnalysis.NoCorrectionIffExcellent | src/modules/h2o/services/waterAnalysis.ts:64-77 | for non-negative hardness, no correction is needed exactly when the tier is excellent |
| WaterAnalysis.NegativeHardnessDisagrees | src/modules/h2o/services/waterAnalysis.ts:69 | with optimal pH and alkalinity, a negative hardness needs no correction and still grades good, not excellent |
| WaterAnalysis.GetQualityColor | src/modules/h2o/services/waterAnalysis.ts:107-120 | each tier name gets its colour; every other string gets grey, and only those do |
| WaterAnalysis.QualityColorsDistinct | src/modules/h2o/services/waterAnalysis.ts:107-120 | the four tier colours are pairwise distinct and differ from grey |
| WaterAnalysis.AnalyzeWaterStrip | src/modules/h2o/services/waterAnalysis.ts:82-95 | the result carries the three readings, their tier and their recommendation list |
| LegacyWaterAnalysis.BandsNested | src/services/waterAnalysisService.ts:32-52 | a better tier's band lies inside every worse tier's band |
| LegacyWaterAnalysis.DetermineQuality | src/services/waterAnalysisService.ts:32-52 | the tier's band holds the sample, and no better tier's band does |
| LegacyWaterAnalysis.Recommendations | src/services/waterAnalysisService.ts:54-93 | exactly three lines, for hardness, pH and general; each line is chosen iff its condition holds; the third line is "Perfecto" iff the tier is excellent |
| LegacyWaterAnalysis.GenerateRecommendations | src/services/waterAnalysisService.ts:54-93 | the pushes build exactly the list `Recommendations` describes |
| LegacyWaterAnalysis.GetQualityColor | src/services/waterAnalysisService.ts:95-108 | the colour of each tier: excellent #10b981, good #3b82f6, fair #f59e0b, poor #ef4444 |
| LegacyWaterAnalysis.GetQualityLabel | src/services/waterAnalysisService.ts:110-123 | the label of each tier: Excelente, Buena, Regular, Mala |
| LegacyWaterAnalysis.ColorAndLabelDistinct | src/services/waterAnalysisService.ts:95-123 | colour and label are total on the four tiers and distinct per tier |
| LegacyWaterAnalysis.AnalyzeWaterStrip | src/services/waterAnalysisService.ts:15-30 | the result carries both readings, their tier and their recommendation list |
| AnalysisStorage.NoneWithId | src/modules/h2o/services/analysisStorage.ts:42-44 | no record is selected by an id exactly when no record has it |
| AnalysisStorage.FindId | src/modules/h2o/services/analysisStorage.ts:42 | the search stops at the first record with the id, or at the end when there is none |
| AnalysisStorage.TailBound | src/modules/h2o/services/analysisStorage.ts:15 | in a newest-first list no later record has a larger id than the head |
| AnalysisStorage.WithIdMembers | src/modules/h2o/services/analysisStorage.ts:42 | the records with a given id are exactly the members with that id |
| AnalysisStorage.RemoveId | src/modules/h2o/services/analysisStorage.ts:60 | filtering never lengthens the list |
| AnalysisStorage.RemoveIdMembers | src/modules/h2o/services/analysisStorage.ts:60 | filtering keeps exactly the members with a different id |
| AnalysisStorage.InsertById | src/modules/h2o/services/analysisStorage.ts:15 | inserting into a list sorted by descending id keeps it sorted and adds exactly that record |
| AnalysisStorage.SortById | src/modules/h2o/services/analysisStorage.ts:15 | the result is sorted by descending id and is a permutation of the input, of the same length |
| AnalysisStorage.SortStable | src/modules/h2o/services/analysisStorage.ts:15 | the sort is stable: records with equal ids keep their relative order |
| AnalysisStorage.StableSortUnique | src/modules/h2o/services/analysisStorage.ts:15 | any sorted, stable permutation of the input is the sort's result |
| AnalysisStorage.SortedUnique | src/modules/h2o/services/analysisStorage.ts:15 | two sorted lists with the same records per id, in the same order, are equal |
| AnalysisStorage.SortSortedIdentity | src/modules/h2o/services/analysisStorage.ts:15 | sorting a list that is already sorted changes nothing |
| AnalysisStorage.RemoveIdAppend | src/modules/h2o/services/analysisStorage.ts:60 | filtering distributes over concatenation |
| AnalysisStorage.RemoveIdSplit | src/modules/h2o/services/analysisStorage.ts:60 | the kept records and the records with the id together are the whole list |
| AnalysisStorage.RemoveIdAbsent | src/modules/h2o/services/analysisStorage.ts:60 | filtering out an id no record has returns the list unchanged |
| AnalysisStorage.RemoveIdSorted | src/modules/h2o/services/analysisStorage.ts:60 | filtering a sorted list leaves it sorted |
| AnalysisStorage.WithIdAppend | src/modules/h2o/services/analysisStorage.ts:42 | the records with an id distribute over concatenation |
| AnalysisStorage.WithIdInsert | src/modules/h2o/services/analysisStorage.ts:15 | insertion keeps the order of the records with each id |
| AnalysisStorage.WithIdFirst | src/modules/h2o/services/analysisStorage.ts:42 | the first index with the id holds the first record with that id |
| AnalysisStorage.PrependSorted | src/modules/h2o/services/analysisStorage.ts:15 | a record whose id is at least the head's keeps a sorted list sorted when put in front |
| AnalysisStorage.SortedHeadMax | src/modules/h2o/services/analysisStorage.ts:15 | the head of a sorted list has the largest id |
| AnalysisStorage.AnalysisStore.constructor | src/modules/h2o/services/analysisStorage.ts:4 | nothing is stored under the key at first |
| AnalysisStorage.AnalysisStore.GetAnalyses | src/modules/h2o/services/analysisStorage.ts:9-16 | nothing stored gives []; otherwise the stored records sorted newest first, a stable permutation |
| AnalysisStorage.AnalysisStore.SaveAnalysis | src/modules/h2o/services/analysisStorage.ts:21-32 | the new record takes the time as id and the ISO date, copies the analysis and the location, and is stored last after the sorted old records, one record more |
| AnalysisStorage.AnalysisStore.GetAnalysisById | src/modules/h2o/services/analysisStorage.ts:37-54 | null iff no stored record has the id; otherwise the first such record's values, with recommendations recomputed only when missing |
| AnalysisStorage.Summary | src/modules/h2o/services/analysisStorage.ts:45-51 | a lookup returns the record's readings and tier, and its stored recommendations, or the recomputed list when it has none |
| AnalysisStorage.AnalysisStore.DeleteAnalysis | src/modules/h2o/services/analysisStorage.ts:59-62 | stores the sorted list without the id's records: exactly the other records are kept, and the removed ones are those with the id |
| AnalysisStorage.DeleteIdempotent | src/modules/h2o/services/analysisStorage.ts:59-62 | deleting an id twice leaves what deleting it once left |
| AnalysisStorage.DeleteAbsentKeepsRecords | src/modules/h2o/services/analysisStorage.ts:59-62 | deleting an id no record has keeps every record |
| Badge.GetQualityVariant | src/components/ui/Badge.tsx:31-44 | excellent and good are success, fair is warning, poor is error; every other string is neutral and only those are; never info |
| Badge.GetQualityLabel | src/components/ui/Badge.tsx:46-54 | the four tier names map to Excelente, Buena, Regular and Deficiente; any other string maps to itself |
| Badge.TierLabelsDistinct | src/components/ui/Badge.tsx:46-54 | the tier labels are pairwise distinct and none is itself a tier name |
| WaterHistoryPage.HistoryPage.constructor | src/pages/WaterHistoryPage.tsx:16 | the page starts with no records |
| WaterHistoryPage.HistoryPage.Load | src/pages/WaterHistoryPage.tsx:18-26 | nothing stored leaves the list as it was; otherwise the stored records sorted newest first |
| WaterHistoryPage.HistoryPage.HandleDeleteAnalysis | src/pages/WaterHistoryPage.tsx:37-42 | keeps exactly the shown records with a different id, in their order, and stores exactly the new list |
| WaterHistoryPage.NeedsCorrection | src/pages/WaterHistoryPage.tsx:76-80 | a record needs no correction exactly when its pH and alkalinity lie in their optimal ranges and its hardness is at most the optimal maximum |
| WaterHistoryPage.NeedsCorrectionAgrees | src/pages/WaterHistoryPage.tsx:76-80 | the page's correction test agrees with the classifier's on every record |
| WaterHistoryPage.QualityBadgeLabel | src/pages/WaterHistoryPage.tsx:62-70 | the badge label is the Badge helper's label for every string |
| WaterHistoryPage.QualityBadgeStyle | src/pages/WaterHistoryPage.tsx:55-69 | the grey style goes to exactly the strings that name no tier |
| MixPage.ChemicalTotals | src/pages/MixPage.tsx:78-82 | one result row per chemical, in order, with name and dose copied and total = dose × total water |
| MixPage.Calculate | src/pages/MixPage.tsx:74-82 | total water = hectares × litres per hectare, with no validation; each row keeps its position, name and dose and gets dose × total water |
| MixPage.InitialMix | src/pages/MixPage.tsx:66-72 | the initial form gives 2000 L of water and 6000 ml of Glifosato |
| MixPage.MixPageState.constructor | src/pages/MixPage.tsx:41-44 | the page starts on the form, with no result, zero shakes and no permission request |
| MixPage.MixPageState.OnShake | src/pages/MixPage.tsx:47-51 | the count grows by one exactly when permission is granted |
| MixPage.MixPageState.HandleSubmit | src/pages/MixPage.tsx:74-89 | stores the calculated mix and shows it |
| MixPage.MixPageState.AutoSubmitDue | src/pages/MixPage.tsx:92 | an auto-submit is due when at least five shakes are counted and the form is shown |
| MixPage.MixPageState.Render | src/pages/MixPage.tsx:91-97 | with at least five shakes and the form shown, the form's values are submitted; otherwise nothing changes; afterwards no auto-submit is pending |
| MixPage.MixPageState.NewMix | src/pages/MixPage.tsx:346-349 | back to the form with the shake count at 0 and the initial values |
| MixPage.MixPageState.AddChemical | src/pages/MixPage.tsx:257 | while the form is shown, appends the first available product with dose 1 at the end |
| MixPage.MixPageState.RemoveChemical | src/pages/MixPage.tsx:240 | while the form is shown, a row is removed iff there is more than one, so the list never empties |
| MixPage.MixPageState.HandleRequestPermission | src/pages/MixPage.tsx:56-64 | the permission is requested unless an earlier request has completed, and the permission and error text are those of the request; after that, calls change nothing |
| Accelerometer.AxisValue | src/hooks/useAccelerometer.ts:44-46 | a missing axis reads 0, a present one its value |
| Accelerometer.Threshold | src/hooks/useAccelerometer.ts:64 | the threshold is the option when it is given and non-zero, 15 otherwise |
| Accelerometer.MotionSensor.constructor | src/hooks/useAccelerometer.ts:18-38 | no readings, permission "prompt", no error, zero baseline and time |
| Accelerometer.MotionSensor.IsSupported | src/hooks/useAccelerometer.ts:29 | the sensor is supported when the device has motion events or orientation events |
| Accelerometer.MotionSensor.HandleMotion | src/hooks/useAccelerometer.ts:40-81 | no acceleration changes nothing. Otherwise x/y/z are recorded and alpha/beta/gamma kept. A shake fires iff there is a callback, the sensor is initialised, more than 100 ms have passed and some axis moved strictly more than the threshold. The first event only sets the baseline and the time. The baseline moves only after more than 100 ms, but the time moves on every event |
| Accelerometer.MotionSensor.HandleOrientation | src/hooks/useAccelerometer.ts:83-90 | records alpha/beta/gamma and keeps x/y/z |
| Accelerometer.MotionSensor.RequestPermission | src/hooks/useAccelerometer.ts:115-150 | granted (true, no error) iff there is no request API or the answer is "granted"; any other answer is denied with the denial text; a failed request is denied with the error prefix and message |
| Accelerometer.CloseEventsNeverShake | src/hooks/useAccelerometer.ts:56-74 | two events at most 100 ms apart never fire a shake, on a fresh sensor too |
| ParameterScale.Percent | src/modules/h2o/components/ParameterScale.tsx:13-15 | the unclamped position times the bar's width is 100 times the value's offset from min, so min sits at 0 and max at 100 |
| ParameterScale.ValuePercent | src/modules/h2o/components/ParameterScale.tsx:13 | the marker lies in [0,100]; it is the unclamped position when that is in range, else 0 or 100 |
| ParameterScale.PercentStrictlyIncreasing | src/modules/h2o/components/ParameterScale.tsx:13-15 | on a bar with max > min, a larger value sits further right |
| ParameterScale.ValuePercentExact | src/modules/h2o/components/ParameterScale.tsx:13 | for min ≤ value ≤ max with max > min, the marker is (value − min)/(max − min)·100, unclamped |
| ParameterScale.OptimalMidPercent | src/modules/h2o/components/ParameterScale.tsx:14-16 | the ideal arrow is equidistant from both ends of the optimal band |
| ParameterScale.IsOptimal | src/modules/h2o/components/ParameterScale.tsx:19 | a value is optimal when it lies between the optimal bounds, both included |
| ParameterScale.ShowIdealArrow | src/modules/h2o/components/ParameterScale.tsx:56 | the "Ideal" arrow is drawn exactly when the value is not optimal |
| ParameterScale.IsOptimalAgrees | src/modules/h2o/components/ParameterScale.tsx:19 | the inclusive optimal test matches the classifier's for every range, and the ideal arrow shows iff the value is not optimal |
| ParameterScale.MarkerOnBandIffOptimal | src/modules/h2o/components/ParameterScale.tsx:13-19 | for a value on a bar that contains the band, the value is optimal iff its marker lies on the green band |
| ParameterScale.Round | src/modules/h2o/components/ParameterScale.tsx:25 | the rounded value is within one half of the input, with halves going up |
| ParameterScale.RoundMonotone | src/modules/h2o/components/ParameterScale.tsx:25 | rounding never reverses order |
| ParameterScale.MarkIncreasing | src/modules/h2o/components/ParameterScale.tsx:22-26 | when max ≥ min, each mark is at most the next |
| ParameterScale.ScaleMarks | src/modules/h2o/components/ParameterScale.tsx:22-26 | exactly six marks; mark i is round(min + i·(max − min)/5), the first is round(min) and the last round(max); they never decrease when max ≥ min |
| AccelerometerBall.Clamp | src/components/AccelerometerBall.tsx:29-30 | the result lies in [5,95]; it is the input when that is in range, otherwise the nearer edge |
| AccelerometerBall.NextPosition | src/components/AccelerometerBall.tsx:23-33 | the next position lies in [5,95]². It equals the unclamped move (x + 2·x reading, y − 2·y reading, a missing reading as 0) when that is in range; otherwise each coordinate is clamped |
| AccelerometerBall.TiltDirection | src/components/AccelerometerBall.tsx:26-27 | a right tilt never moves the ball left and a left tilt never right; a positive y reading never moves it down and a negative one never up |
| AccelerometerBall.NeedsPermission | src/components/AccelerometerBall.tsx:13 | the permission prompt shows when the sensor is supported and the permission is still "prompt" |
| AccelerometerBall.LoopRuns | src/components/AccelerometerBall.tsx:16 | the animation starts only when both x and y readings are present and the permission is granted |
| AccelerometerBall.PromptStopsLoop | src/components/AccelerometerBall.tsx:13-18 | while permission is being asked for, the loop does not run; the loop runs only with both readings present |
| AccelerometerBall.IterateInBounds | src/components/AccelerometerBall.tsx:23-38 | after any number of frames the ball is still within [5,95]² |
| AccelerometerBall.IterateSlidesX | src/components/AccelerometerBall.tsx:26-29 | the x coordinate evolves on its own, moved by 2·x per frame and clamped |
| AccelerometerBall.SlideToEdge | src/components/AccelerometerBall.tsx:26-29 | a coordinate pushed by d ≥ 0 per frame moves linearly until it reaches 95, then stays there; with `IterateSlidesX`, a steady right tilt moves the ball 2·x per frame until it stops at the right edge |
| AccelerometerBall.Ball.constructor | src/components/AccelerometerBall.tsx:9 | the ball starts at (50,50) |
| AccelerometerBall.Ball.Animate | src/components/AccelerometerBall.tsx:15-45 | if the guard fails (a missing x or y reading, or permission not granted) nothing moves; otherwise each frame applies the updater to the previous position, and the ball stays in bounds |

## Left out

- Random readings. Both `analyzeWaterStrip` functions draw their readings from `Math.random` and round them with `toFixed`. The model takes the readings as parameters.
- Number formatting. This covers `toFixed(2)` on a chemical's total, so `totalAmount` is a number here and not a string. It also covers the litres line of the mix display and the readout on the ball page.
- Floating point. All numbers are exact reals, and IEEE rounding is not modelled.
- Browser storage and JSON. The storage slot is a list or nothing. An empty stored string, which the source also reads as "nothing stored", and malformed JSON are not modelled.
- The clock. `Date.now()` and the ISO date are parameters of `SaveAnalysis`, and the time is a parameter of `HandleMotion`.
- AnalysisStorage.AnalysisStore.GetAnalysisById: the 800 ms simulated delay is not modelled. The id is an integer, so `parseInt` of a string (and a `NaN` id) is not modelled.
- Date display. `formatAnalysisDate` and `formatDate` use locale formatting and are left out.
- Event plumbing. Listener registration and removal, `requestAnimationFrame` scheduling and cancellation, and React re-render scheduling are left out. Each event handler is a method, and the animation loop runs a given number of frames.
- MixPage.MixPageState.Render: the source submits by dispatching a DOM `submit` event to the form. The model calls the submit handler with the form's values directly.
- MixPage.MixPageState.NewMix: the Formik form is unmounted while the result shows, so it comes back with the initial values. The model resets the values explicitly. Formik's field editing is not modelled beyond adding and removing rows.
- MixPage.MixPageState.HandleRequestPermission: the `await` between the check of `permissionRequested` and setting it is not modelled. The model runs the check, the request and the flag as one step. In the source the "Activar" panel stays visible while a request is pending, so overlapping taps each request permission. The `console.warn` on a refusal is left out too.
- Accelerometer.MotionSensor.RequestPermission: console logging is left out. The platform's answer is a parameter.
- ParameterScale.ValuePercent: a bar with max = min is excluded. There the source divides by zero and gets an infinity or `NaN`. Every caller passes one of the three parameter ranges, and none of them is degenerate.
- ParameterScale.OptimalMidPercent: a bar with max = min is excluded, for the same reason.
- Badge.GetQualityLabel: `labels[quality]` is a lookup in a plain object. It can also find inherited properties such as `"constructor"`; the model maps every non-tier string to itself.
- WaterHistoryPage.QualityBadgeLabel: the same inherited-property lookup is not modelled.
- WaterHistoryPage.QualityBadgeStyle: the same inherited-property lookup is not modelled.
- Presentation. JSX markup, navigation and the PDF report are left out, except for the values that the modelled functions compute.
