# Multi-effect evaporator virtual lab — Dafny model

A browser laboratory that simulates a three-effect evaporator. Its logic is:

- **The result formula** (`calculateResults`). Six settings go in: steam temperature, feed rate, feed concentration, number of effects, target product concentration and cooling-water flow. Out come steam economy, heat-transfer rate, the clamped water-removal fraction, final concentration, total evaporation, steam consumption, product flow, thermal efficiency, specific energy, cooling-water requirement, and a flag that turns the cooling-water label red when the flow is under twice the evaporation.
- **The effect temperature cascade** (`getEffectTemperature`) and **the three-band performance rating** announced after a run.
- **The lab object's run flag and settings.** Sliders change the settings. Start is guarded by the run flag. Completion and reset clear the flag, and reset restores the defaults.
- **The pre-test and post-test quizzes.** On submit, each counts the correct answers and colours the wrong or blank questions red.

Modules:

- `Wrappers`: `Option`.
- `Evaporator`: the formula, the cascade and the rating, as pure functions. Quantities are exact `real`s. Settings are `int`s, because every slider handler stores `parseInt` of the slider.
- `Lab`: the `MultiEffectEvaporatorLab` class with its `isRunning` and `parameters` fields.
- `Quiz`: the scoring loop as a method, proved against a recursive count. The two quiz files carry the same scoring code (experiment/posttest.js:40-70 and experiment/pretest.js:40-70), so it is modelled once, and the table cites the post-test copy.
- `PostTest` and `PreTest`: each quiz's answer key and its submit handler.

Where the source divides by zero, the result is a non-finite double (Infinity or NaN). The model gives `None` instead. This happens for steam consumption when the economy is zero, and for specific energy when the feed is zero. An effect number outside 1..3 makes the source read `undefined` from its drop table, which gives NaN. That is `None` too.

Nothing ever clears a question's red colour: the statement that would colour a correct answer is commented out. So a question answered wrongly, then corrected and resubmitted, stays red. The quiz model therefore takes the colours left by earlier submissions as an input.

For the default settings, the heat-transfer rate the code computes is 500 · 4.18 · 125 / 3600 ≈ 72.6 kW. The model follows the code; see `Evaporator.DefaultResults`.

## Model

| member | source | states |
|---|---|---|
| Evaporator.SteamEconomy | experiment/simulation/js/main.js:969-973 | With three effects the economy is 2.2 + 0.8 per 100 °C above 60 °C. With two it is exactly 1.0 lower. For any other count it moves 0.5 per effect away from three. |
| Evaporator.WaterRemovalRate | experiment/simulation/js/main.js:978-981 | The fraction always lies in [0.65, 0.90]. It equals the unclamped formula when that is in range, and the nearer bound otherwise. |
| Evaporator.FinalConcentration | experiment/simulation/js/main.js:983-985 | The final concentration is the larger of feed/(1 − removal) and the target. It is never below either. |
| Evaporator.Evaporation | experiment/simulation/js/main.js:988 | Vapour is feed × removal fraction. What is left (line 1000) is at least a tenth of a non-negative feed, and is zero only for a zero feed. |
| Evaporator.ThermalEfficiency | experiment/simulation/js/main.js:1001 | Efficiency is never above 95 % or above 70 + 8·(economy − 2), and it equals one of the two. |
| Evaporator.Ratio | experiment/simulation/js/main.js:999-1002 | The divisions at lines 999 and 1002. A quotient is defined exactly when the divisor is non-zero, and then it times the divisor gives back the numerator. |
| Evaporator.CalculateResults | experiment/simulation/js/main.js:960-1003 | The whole result set. The clamp holds, and the override leaves the concentration ≥ target. Mass balance holds: evaporation + product = feed, and product ≥ feed/10. Steam consumption is finite iff the economy is non-zero, specific energy is finite iff the feed is non-zero, and efficiency ≤ 95. The warning is raised iff the cooling flow < 2 × evaporation. |
| Evaporator.SteamConsumptionMeaning | experiment/simulation/js/main.js:999 | Where it is finite, steam consumption × economy = total evaporation. |
| Evaporator.SpecificEnergyMeaning | experiment/simulation/js/main.js:1002 | Where it is finite, specific energy × product flow = heat-transfer rate. |
| Evaporator.CoolingWarningBelowRequirement | experiment/simulation/js/main.js:992-1003 | The requirement satisfies requirement × 41.8 = evaporation × 2300, which is about 55 × evaporation. For any positive feed it is above the warning threshold of 2 × evaporation. So a flow just over that threshold is far short of the requirement and still raises no warning. |
| Evaporator.DefaultResults | experiment/simulation/js/main.js:40-47 | The default settings give economy 2.92, removal 0.8, evaporation 400, product 100, final concentration 50, efficiency 77.36 and heat duty 261250/3600, with no warning. |
| Evaporator.SteamEconomyIncreasing | experiment/simulation/js/main.js:970-973 | For any effect count, the steam economy rises strictly with the steam temperature. |
| Evaporator.HeatTransfer | experiment/simulation/js/main.js:976 | Heat duty × 3600 = 4.18 · feed · (T − 25): the sensible heat from 25 °C, converted from kJ/hr to kW. It is positive for a positive feed above 25 °C and zero for a zero feed or at 25 °C. |
| Evaporator.HeatTransferIncreasing | experiment/simulation/js/main.js:976 | For a positive feed, the heat-transfer rate rises strictly with the steam temperature. |
| Evaporator.WaterRemovalRateMonotonic | experiment/simulation/js/main.js:979-981 | The clamped removal fraction never falls as the steam temperature rises. |
| Evaporator.CoolingWaterOnlyAffectsWarning | experiment/simulation/js/main.js:990-996 | Changing the cooling-water flow changes no result except the warning flag. |
| Evaporator.ConcentrationFactor | experiment/simulation/js/main.js:984 | A removal fraction in [0.65, 0.90] multiplies a non-negative feed concentration by between 1/0.35 and 10. |
| Evaporator.FinalConcentrationBounds | experiment/simulation/js/main.js:984-985 | For a non-negative feed, the final concentration is at least the feed's, and at most the larger of the target and ten times the feed's. |
| Evaporator.EffectTemperature | experiment/simulation/js/main.js:953-958 | Defined exactly for effects 1–3. It is never below 60, and it equals steam − [0, 30, 50][n−1] when that is ≥ 60, else 60. |
| Evaporator.EffectTemperaturesDescend | experiment/simulation/js/main.js:956-957 | From effect 1 to effect 3 the temperature never rises. |
| Evaporator.Classify | experiment/simulation/js/main.js:1394-1400 | The three-band rule on the two figures it is given. High iff economy ≥ 3.0 and efficiency ≥ 85. Medium iff not High and economy ≥ 2.5 and efficiency ≥ 75. Low iff neither. |
| Evaporator.ClassifyMonotonic | experiment/simulation/js/main.js:1394-1400 | Higher economy and efficiency never earn a lower rating. |
| Evaporator.ClassifyResults | experiment/simulation/js/main.js:1394-1400 | The rating of the exact results depends on the economy alone, because the efficiency follows from it (line 1001). High iff ≥ 3.875, Medium iff in [2.625, 3.875), Low iff < 2.625. |
| Evaporator.NoHighWithThreeEffects | experiment/simulation/js/main.js:1394-1400 | With three effects (lines 970-973), the exact results of no steam temperature up to 269 °C are rated High. |
| Evaporator.MathRound | experiment/simulation/js/main.js:1015 | `Math.round` gives the nearest integer, with halves rounded up: x − 0.5 < n ≤ x + 0.5. |
| Evaporator.ToFixed2 | experiment/simulation/js/main.js:1006 | `toFixed(2)` read back by `parseFloat` gives a multiple of 0.01 within 0.005 of the value, with halves rounded away from zero. |
| Evaporator.AnnouncedRating | experiment/simulation/js/main.js:1388-1400 | The announced rating classifies the displayed figures: economy to two decimals and efficiency rounded to an integer. High needs economy ≥ 2.995 and efficiency ≥ 84.5. Medium or High needs ≥ 2.495 and ≥ 74.5. |
| Evaporator.AnnouncedBands | experiment/simulation/js/main.js:1388-1400 | When the efficiency follows from the economy, the announced rating is High iff economy ≥ 3.8125, Medium iff in [2.5625, 3.8125), Low iff < 2.5625. |
| Evaporator.AnnouncedResults | experiment/simulation/js/main.js:1388-1400 | For computed results, the announced bands start at economy 3.8125 (High) and 2.5625 (Medium), half a step of the rounded efficiency earlier than the exact bands. |
| Evaporator.AnnouncedBandsThreeEffects | experiment/simulation/js/main.js:1388-1400 | With three effects the announcement is High iff steam ≥ 262 °C and Low iff steam < 106 °C. |
| Lab.Adjust | experiment/simulation/js/main.js:124-157 | Moving one slider changes that setting to the new value and no other setting. |
| Lab.MultiEffectEvaporatorLab.constructor | experiment/simulation/js/main.js:29-47 | A new lab is not running and holds the defaults (150, 500, 10, 3, 45, 1000). |
| Lab.MultiEffectEvaporatorLab.Results | experiment/simulation/js/main.js:960-1003 | The current results. With the lab's three effects the economy is the base economy. The clamp and the mass balance hold. |
| Lab.MultiEffectEvaporatorLab.Rating | experiment/simulation/js/main.js:1388-1400 | The rating announced from the displayed current results. It is High iff the economy ≥ 3.8125 and Low iff < 2.5625. With the lab's three effects it is High iff steam ≥ 262 °C and Low iff < 106 °C. |
| Lab.MultiEffectEvaporatorLab.Slide | experiment/simulation/js/main.js:124-157 | A slider handler updates only its own setting and leaves the run flag alone. |
| Lab.MultiEffectEvaporatorLab.StartExperiment | experiment/simulation/js/main.js:1023-1026 | When already running it does nothing and reports that no run started. Otherwise it starts a run. Either way the lab is then running, with unchanged settings. |
| Lab.MultiEffectEvaporatorLab.CompleteExperiment | experiment/simulation/js/main.js:1209-1210 | The run flag is cleared and the settings are kept. |
| Lab.MultiEffectEvaporatorLab.ResetExperiment | experiment/simulation/js/main.js:1254-1286 | The run flag is cleared and every setting is back at its default. |
| Quiz.CorrectCountIsSize | experiment/posttest.js:48-58 | The recursive count equals the size of the set of correctly answered question numbers. |
| Quiz.CorrectCountBound | experiment/posttest.js:45-69 | The score never exceeds the number of questions. |
| Quiz.FullMarks | experiment/posttest.js:54-58 | Full marks iff every question is answered with its correct letter. |
| Quiz.BlankScoresZero | experiment/posttest.js:52-55 | A sheet with nothing checked scores zero. |
| Quiz.ShowResults | experiment/posttest.js:40-70 | The score is the count of correct answers and at most the number of questions. A question ends red iff it was red or is not answered correctly. A blank is always red. On a fresh question red means exactly "not counted". |
| PostTest.QuestionsWellFormed | experiment/posttest.js:90-141 | Five questions, each offering a–d, each with a correct letter among those offered. |
| PostTest.ShowResults | experiment/posttest.js:40-70 | Scores at most 5 against the key c, b, b, d, c. It scores 5 for exactly that sheet. Wrong and blank questions end red. |
| PreTest.QuestionsWellFormed | experiment/pretest.js:90-141 | Five questions, each offering a–d, each with a correct letter among those offered. |
| PreTest.ShowResults | experiment/pretest.js:40-70 | Scores at most 5 against the key c, b, c, b, c. It scores 5 for exactly that sheet. Wrong and blank questions end red. |

## Left out

- Floating point: the model computes in exact reals, so IEEE-754 rounding in the formula is not modelled. Division by zero gives `None` rather than Infinity or NaN.
- Floating-point display rounding: `Evaporator.ToFixed2` and `Evaporator.MathRound` round exact reals half up (or away from zero). `toFixed` works on the binary double, so a value whose decimal form ends in exactly 5 may be shown rounded down. The announced bands in the model (economy 3.8125 for High and 2.5625 for Medium; 262 °C and 106 °C at three effects) can therefore be off by that rounding.
- Evaporator.Classify, Evaporator.ClassifyResults, Evaporator.NoHighWithThreeEffects: these rate the exact results. The page announces a rating of the rounded display values, which `Evaporator.AnnouncedRating` models. Its bands start earlier: economy 3.8125 instead of 3.875 for High, and 2.5625 instead of 2.625 for Medium. With three effects, steam at 106–113 °C is announced Medium where the exact rating is Low. Steam at 262–269 °C is announced High where the exact rating is Medium.
- Display formatting beyond the two figures the rating reads back, the DOM writes of the results, the summary panel and the label colours: rendering only. The warning is kept as the boolean `coolingWaterLow`.
- Event-listener wiring, tooltips, navigation tabs and keyboard shortcuts: UI plumbing. The effect of a slider on the settings is kept as `Slide`.
- Speech synthesis and the voice panel: a browser API outside the model.
- The vapour and water animations, and the random display jitter while a run is in progress: cosmetic, and driven by timers, trigonometry and randomness.
- `setTimeout` sequencing: the five-second timer that completes a run, the delayed announcements and the notifications. The model offers `CompleteExperiment` as a separate call.
- Parameters that are not integers: the source may hold `NaN` from `parseInt` of an empty slider value, and the model's settings are always integers.
- Quiz rendering (`buildQuiz`) and the question and answer texts: scoring depends only on the letters offered and the correct letter. The results line "n out of m" is kept as the returned score.
