# nyanya backend: a Dafny model of the tomato-demand core

This project models the decision logic of the nyanya backend. The backend is a
Django service that predicts weekly tomato market demand in Mbeya and feeds a
dashboard. Four pieces are modelled.

- **The demand predictor** (`ModelLoader`, file `model_loader.dfy`). The
  `TomatoModelLoader` class holds four trained artifacts and an `isTrained`
  flag:
  - the classifier, the categorical encoders, the target encoder and the
    metadata;
  - loading reads the four files in order and raises the flag only after the
    last one;
  - reloading clears everything first;
  - the encoding step turns one week's observation into the 8-column feature
    row;
  - prediction decodes the classifier's class and reports its top
    probability.
- **The stored records** (`MarketModels`, file `market_models.dfy`). This
  covers:
  - the weekly market record with its `is_high_demand` and `demand_trend`
    properties;
  - its `(year, week)` uniqueness and newest-first ordering;
  - the data-source record with its `needs_update` freshness rule.
- **The dashboard views** (`PredictionViews`, file `prediction_views.dfy`).
  These are the current-week card, the metric cards, the 12-week chart, the
  week-by-week simulation, the weather and health cards, the demand donut,
  the business card and the agricultural tips.
  - Each view reads record sequences in the order the ORM returns them
    (newest first), so the model needs no database.
  - The list built-ins the views use are in `ListOps` (`list_ops.dfy`):
    slicing, `reversed`, counting and the stable `sorted`.
- **The sample-data load command** (`LoadSampleData`, file
  `load_sample_data.dfy`). The command can first clear the table. It then
  walks the rows of a CSV file and calls `get_or_create` on `(week, year)`
  for each one, counting created records and failed rows.
  - The table is the `MarketDataTable` class, a map keyed by `(year, week)`.
  - Whole loads are described by the function `LoadAll` over that map.
  - A source comment calls the step "create or update", but `get_or_create`
    never updates. The model inserts only when the key is absent, and
    `LoadAllKeeps` proves that stored records are never changed.

Code whose job is to change state is imperative Dafny:
- the predictor's load methods;
- the loops of the chart, donut, simulation and tips views;
- the command's row loop.

Each of these is proved against a specification function, and the promised
properties are lemmas about that function. Code that only computes is
written as functions.

Error paths become `Result` values:
- a predictor that is not loaded;
- a label missing from an encoder;
- a demand label missing from a view's dictionary (a server error in the
  service);
- a row that fails to convert or insert.

Time is a parameter in whole seconds. Decimals are modelled as reals.

## Model

| member | source | states |
|---|---|---|
| MarketModels.IsHighDemand | nyanya_backend/market_data/models.py:64-66 | a week is high-demand exactly when its demand is at the top level, i.e. labelled 'High' |
| MarketModels.DemandLevel | nyanya_backend/market_data/models.py:70-72 | Low is level 1, High level 3, and Medium or any unknown label level 2 |
| MarketModels.DemandTrend | nyanya_backend/market_data/models.py:68-79 | Increasing, Decreasing or Stable exactly when this week's level is above, below or equal to last week's |
| MarketModels.DemandTrendSwap | nyanya_backend/market_data/models.py:74-79 | exchanging this week's and last week's demand turns Increasing into Decreasing and keeps Stable |
| MarketModels.DemandTrendUnknownIsMedium | nyanya_backend/market_data/models.py:70-72 | a demand label outside Low/Medium/High gives the same trend as 'Medium' |
| MarketModels.ListingNewestFirst | nyanya_backend/market_data/models.py:57-59 | a listing of the table (each stored record once, under its own key, in the `-year, -week` order) never shows a (year, week) twice, so it is strictly newest first |
| MarketModels.FrequencyPeriod | nyanya_backend/market_data/models.py:118-124 | daily, weekly and monthly map to 1, 7 and 30 days; no other frequency has a period |
| MarketModels.NeedsUpdate | nyanya_backend/market_data/models.py:110-128 | an inactive or never-fetched source is due; a scheduled one is due exactly when its period has elapsed; any other frequency is never due |
| MarketModels.NeedsUpdateMonotone | nyanya_backend/market_data/models.py:124-126 | once due, a source stays due as time passes |
| MarketModels.ManualNeverDue | nyanya_backend/market_data/models.py:124-128 | an active, fetched source with the 'manual' frequency is never due |
| ModelLoader.EncodeWith | nyanya_backend/predictions/model_loader.py:102-123 | encoding succeeds exactly when both encoders know their labels; the row is rainfall, temperature, the three 0/1 indicators, the two codes and 2024, in that column order; failure is an encoding error |
| ModelLoader.EncodeIgnoresWeek | nyanya_backend/predictions/model_loader.py:87-118 | the week argument never changes the encoding |
| ModelLoader.UnknownMonthRejected | nyanya_backend/predictions/model_loader.py:103-123 | a month outside the trained vocabulary fails the encoding |
| ModelLoader.EncodeExample | nyanya_backend/predictions/model_loader.py:103-118 | a worked row: Medium coded 1 and January coded 0 give [75, 23, 1, 1, 0, 1, 0, 2024] |
| ModelLoader.MaxOf | nyanya_backend/predictions/model_loader.py:148 | the result is an entry of the vector and no entry exceeds it |
| ModelLoader.PredictWith | nyanya_backend/predictions/model_loader.py:140-154 | succeeds exactly when every step succeeds; the demand is the target encoder's label for the predicted class and the confidence is the largest probability; any failure is a prediction error |
| ModelLoader.ConfidenceBounds | nyanya_backend/predictions/model_loader.py:147-148 | with probabilities in [0, 1] the reported confidence is in [0, 1] |
| ModelLoader.TomatoModelLoader.constructor | nyanya_backend/predictions/model_loader.py:19-33 | starts empty and loads once: each field holds its file's content when it and all files before it could be read, trained exactly when all four could |
| ModelLoader.TomatoModelLoader.LoadModel | nyanya_backend/predictions/model_loader.py:35-76 | a missing file changes nothing but the flag; the files are read in order and a failure leaves the earlier fields assigned; true and trained exactly when all four are read |
| ModelLoader.TomatoModelLoader.ReloadModel | nyanya_backend/predictions/model_loader.py:78-85 | every field is cleared first, so after a reload a field is set only when the load reached it, and the result is the load's |
| ModelLoader.TomatoModelLoader.EncodeFeatures | nyanya_backend/predictions/model_loader.py:87-123 | an untrained predictor refuses; a trained one encodes with its encoders, failing exactly on unknown labels |
| ModelLoader.TomatoModelLoader.Predict | nyanya_backend/predictions/model_loader.py:125-154 | an untrained predictor refuses; a trained one answers with its own artifacts, and every other failure is a prediction error |
| ModelLoader.TomatoModelLoader.GetModelInfo | nyanya_backend/predictions/model_loader.py:156-168 | untrained gives the 'Model not loaded.' notice; trained gives the metadata with 0, 'Unknown', [] and 'Market_Demand' for missing keys |
| ModelLoader.ReloadKeepsPredictions | nyanya_backend/predictions/model_loader.py:78-85 | reloading from the files the predictor was loaded from keeps it trained and every prediction unchanged |
| ListOps.Take | nyanya_backend/predictions/views.py:122 | a slice `[:n]` holds the first n elements, or all of them when there are fewer |
| ListOps.Reverse | nyanya_backend/predictions/views.py:127 | `reversed` puts element i at position len-1-i |
| ListOps.CountWhere | nyanya_backend/predictions/views.py:304-305 | a filtered count is the number of positions whose element qualifies; so it is at most the length, and zero exactly when none qualifies |
| ListOps.CountWherePrefix | nyanya_backend/predictions/views.py:319-320 | counting over a longer prefix never finds fewer |
| ListOps.SortByCorrect | nyanya_backend/predictions/views.py:439 | `sorted` with a key is ascending, a permutation of its input, and stable within each key |
| PredictionViews.StatusColor | nyanya_backend/predictions/views.py:36-42 | a colour exists exactly for High, Medium and Low |
| PredictionViews.CurrentWeekPrediction | nyanya_backend/predictions/views.py:18-47 | the card is given exactly when the prediction succeeds with a known label, coloured red/orange/green for High/Medium/Low; otherwise an error answer, the predictor's refusal when untrained |
| PredictionViews.ChangeOf | nyanya_backend/predictions/views.py:62-69 | the change is "+0%" exactly when the earlier period is empty, otherwise the relative change in percent; its text holds '+' exactly when there is no baseline or the count did not fall |
| PredictionViews.TrendOf | nyanya_backend/predictions/views.py:93-99 | the arrow points up exactly when the change text holds '+' |
| PredictionViews.CountSince | nyanya_backend/predictions/views.py:58-59 | the number of predictions whose timestamp is at or after the moment |
| PredictionViews.CountBetween | nyanya_backend/predictions/views.py:62-67 | the number of predictions whose timestamp lies in the half-open window |
| PredictionViews.CountSinceSplit | nyanya_backend/predictions/views.py:58-67 | the predictions from a moment on are those of the window up to a later moment plus those from that later moment on |
| PredictionViews.DashboardCardsAt | nyanya_backend/predictions/views.py:52-114 | total, 7-day and high counts; accuracy 95; each card's change is `ChangeOf` the current against the earlier window (7 days against the 7 before, 30 against the 30 before), and its trend is `TrendOf` that change: up exactly when the earlier window is empty or the current count is at least the earlier one |
| PredictionViews.Tally | nyanya_backend/predictions/views.py:135 | adding a label succeeds exactly for the three keys and adds one to the total |
| PredictionViews.CountsOfTotal | nyanya_backend/predictions/views.py:125-140 | when every label is known, the three counts sum to the number of records |
| PredictionViews.DemandValue | nyanya_backend/predictions/views.py:131 | the chart value exists exactly for the three labels and equals the record's demand level |
| PredictionViews.DecimalString | nyanya_backend/predictions/views.py:129 | the week is written as a non-empty run of decimal digits that spells its value, with no leading zero except for 0 itself |
| PredictionViews.PointsOfPointwise | nyanya_backend/predictions/views.py:127-134 | one point per record, the i-th point being that of the i-th record (week text, label, value, rainfall and temperature) |
| PredictionViews.CountDemandCounts | nyanya_backend/predictions/views.py:125-135 | the dictionary's count for a label is the number of records carrying that label |
| PredictionViews.CountDemandIsCountWhere | nyanya_backend/predictions/views.py:125-135 | the dictionary's count for a label is the filtered count of records with that label |
| PredictionViews.TallyStep | nyanya_backend/predictions/views.py:127-135 | one more record with a known label gives one more point and one more count for its label |
| PredictionViews.PlotRecords | nyanya_backend/predictions/views.py:125-135 | the loop's result is `PlotOf` the records: a plot exactly when that has one, and otherwise an error naming an unknown label |
| PredictionViews.PlotOfKnown | nyanya_backend/predictions/views.py:125-135 | the loop yields a plot exactly when every label is known |
| PredictionViews.PlotOfValue | nyanya_backend/predictions/views.py:125-135 | with every label known, the plot's points and counts are `PointsOf` and `CountsOf` the records |
| PredictionViews.PlotOfStaysNone | nyanya_backend/predictions/views.py:125-135 | once the loop has failed on a prefix it fails on the whole run |
| PredictionViews.AllKnownReverse | nyanya_backend/predictions/views.py:125-135 | reversing the records does not change whether every label is known |
| PredictionViews.ChartData | nyanya_backend/predictions/views.py:119-141 | over the 12 newest records read oldest first: succeeds exactly when every label is known, the points and counts are those of the records, and the counts sum to the total, which is the number of points, at most 12; an unknown label is the error |
| PredictionViews.ChartChronological | nyanya_backend/predictions/views.py:122-127 | read from a listing of the table, the chart runs strictly forward in time |
| PredictionViews.WeeksInRange | nyanya_backend/predictions/views.py:153-157 | every kept record is a table record of the year asked for within the week range, and every such record is kept |
| PredictionViews.WeeksInRangeCounts | nyanya_backend/predictions/views.py:153-157 | the filter keeps each in-range record exactly as many times as the table holds it and drops every other record |
| PredictionViews.SimulatedWeeksInRange | nyanya_backend/predictions/views.py:153-157 | the weeks played are in range and ascending by week |
| PredictionViews.SimulatedWeeksCounts | nyanya_backend/predictions/views.py:153-157 | after the sort by week, each in-range record is still played exactly as many times as it is stored, so a record stored once is played once |
| PredictionViews.FrameFor | nyanya_backend/predictions/views.py:161-184 | a week gives one frame exactly when its prediction succeeds; the frame carries the week, the month, both demands, the prediction's confidence, and a match flag that is true exactly when they agree |
| PredictionViews.FramesOfUntrained | nyanya_backend/predictions/views.py:161-184 | with no model loaded every week is skipped |
| PredictionViews.FramesOfOrdered | nyanya_backend/predictions/views.py:157-181 | frames from sorted weeks in range are sorted and in range, with truthful match flags, no more frames than weeks |
| PredictionViews.FramesOfCovers | nyanya_backend/predictions/views.py:161-181 | every week whose prediction succeeds has its frame among the frames |
| PredictionViews.SimulatedWeeksCovered | nyanya_backend/predictions/views.py:153-181 | every stored week of the year within the range whose prediction succeeds is played, with its week, its actual demand and the predicted demand |
| PredictionViews.SimulatedFrames | nyanya_backend/predictions/views.py:153-181 | the played frames are in range, ascending, no more than the weeks, with truthful match flags, and cover every in-range week whose prediction succeeds |
| PredictionViews.PlayWeeks | nyanya_backend/predictions/views.py:159-181 | the loop's frames are `FramesOf` the weeks, in order, skipping failed predictions |
| PredictionViews.SimulateWeeks | nyanya_backend/predictions/views.py:146-190 | the frames are those of the sorted weeks in range, dropping failed predictions; ascending by week; one for every in-range week whose prediction succeeds; the count is the number of frames; play speed 500 |
| PredictionViews.StatusCardsOf | nyanya_backend/predictions/views.py:195-247 | no data exactly when the table is empty; otherwise Hot above 30, Cold below 15, Moderate between; a disease alert exactly on 'Presence'; red colours exactly for Hot and for the alert |
| PredictionViews.TallyDemands | nyanya_backend/predictions/views.py:257-260 | the counting loop succeeds exactly when every label is known and then gives the per-label counts; the error names an unknown label |
| PredictionViews.DonutOf | nyanya_backend/predictions/views.py:262-266 | the donut always has a positive total equal to the sum of its counts, and counts with a positive total are shown as they are |
| PredictionViews.MarketInsightsChart | nyanya_backend/predictions/views.py:252-280 | over the 20 newest records: succeeds exactly when every label is known, with their counts or the fixed split |
| PredictionViews.DonutOfRecent | nyanya_backend/predictions/views.py:256-266 | the fixed 30/50/20 split of 100 appears exactly when there are no records; otherwise the counts of the recent records over their number |
| PredictionViews.BusinessInsightsData | nyanya_backend/predictions/views.py:285-338 | the fixed answer exactly for an empty table; profit High/Medium/Low at 4 and 2 high weeks with the matching revenue; trend Growing/Stable/Declining at 2, 1 and 0 high among the 3 newest; 'Tuesday, Friday' exactly above 6 market days |
| PredictionViews.GrowingMeansProfitNotLow | nyanya_backend/predictions/views.py:304-326 | a growing trend never comes with low profit potential |
| PredictionViews.PriorityRank | nyanya_backend/predictions/views.py:438-439 | critical, high and medium rank 0, 1 and 2; any other priority ranks 3, as low |
| PredictionViews.RecentHighDemandWeeks | nyanya_backend/predictions/views.py:352-353 | at most 10 and at most the number of high predictions, and equal to that number when it is below 10 |
| PredictionViews.AverageConfidence | nyanya_backend/predictions/views.py:348-354 | the mean confidence of the (at most) 10 newest predictions; 0.5 when there are none or their sum is 0; never 0 |
| PredictionViews.ContextOf | nyanya_backend/predictions/views.py:346-354 | the tips read the newest week (when there is one), the high count and the mean confidence |
| PredictionViews.GivenMembers | nyanya_backend/predictions/views.py:371-432 | a tip is given exactly when its kind is considered and its condition holds |
| PredictionViews.GivenOrdered | nyanya_backend/predictions/views.py:371-432 | the given tips keep the order in which the view considers them |
| PredictionViews.WeekTips | nyanya_backend/predictions/views.py:373-410 | the tips from the newest week are those of the temperature, rainfall and disease kinds whose conditions hold, in that order |
| PredictionViews.MarketTips | nyanya_backend/predictions/views.py:412-432 | the tips from the stored predictions are those of the expansion, quality and planning kinds whose conditions hold, in that order |
| PredictionViews.AgriculturalTips | nyanya_backend/predictions/views.py:343-446 | all the tips are the base tips followed by the contextual tips whose conditions hold; the shown tips are the first 4 of their stable sort by priority |
| PredictionViews.AllTipsInOrder | nyanya_backend/predictions/views.py:357-435 | the base tips come first, the tips follow the view's order, each with its own priority |
| PredictionViews.WeekTipsGivenWhen | nyanya_backend/predictions/views.py:373-410 | irrigation above 25 degrees and cold-protection below 20, drainage above 100 mm and conservation below 20 mm, with zero readings giving none, and the critical tip on 'Presence' |
| PredictionViews.MarketTipsGivenWhen | nyanya_backend/predictions/views.py:412-432 | expansion at 3 or more high weeks, quality at 1 or fewer, planning above 0.8 mean confidence |
| PredictionViews.AllTipsGiven | nyanya_backend/predictions/views.py:346-432 | the same conditions stated on the newest record and the stored predictions |
| PredictionViews.FirstShownTip | nyanya_backend/predictions/views.py:434-443 | the treatment tip is shown first exactly under a disease alert; otherwise the dry-season tip is |
| PredictionViews.ShownTipsSorted | nyanya_backend/predictions/views.py:437-443 | the shown tips are in priority order |
| PredictionViews.DiseaseTipFirst | nyanya_backend/predictions/views.py:437-443 | when the treatment tip is the only critical one, it is shown first |
| PredictionViews.DrySeasonTipFirstWithoutAlert | nyanya_backend/predictions/views.py:437-443 | without a critical tip the first base tip is shown first |
| LoadSampleData.Lower | nyanya_backend/market_data/management/commands/load_sample_data.py:49-50 | lower-casing keeps the length and maps each letter to lower case |
| LoadSampleData.LowerIdempotent | nyanya_backend/market_data/management/commands/load_sample_data.py:49-50 | lower-casing twice is lower-casing once |
| LoadSampleData.ParseFlagIgnoresCase | nyanya_backend/market_data/management/commands/load_sample_data.py:49-50 | a flag reads the same in any letter case |
| LoadSampleData.ParseFlagAccepts | nyanya_backend/market_data/management/commands/load_sample_data.py:49-50 | 'Yes', 'TRUE', 'True' and '1' read as true |
| LoadSampleData.ParseFlagRejects | nyanya_backend/market_data/management/commands/load_sample_data.py:49-50 | 'No', 'False', '0' and an empty cell's 'nan' read as false |
| LoadSampleData.ValuesOf | nyanya_backend/market_data/management/commands/load_sample_data.py:47-67 | a row converts exactly when every cell does; it keeps the key, the month, rainfall, temperature, disease alert and both demands, parses both flags and sets the source to 'sample_data_load' |
| LoadSampleData.RecordOf | nyanya_backend/market_data/management/commands/load_sample_data.py:53-67 | the inserted record is stored under the row's own key, and its other columns are exactly the defaults |
| LoadSampleData.MarketDataTable.Clear | nyanya_backend/market_data/management/commands/load_sample_data.py:31-34 | the table is empty |
| LoadSampleData.MarketDataTable.GetOrCreate | nyanya_backend/market_data/management/commands/load_sample_data.py:53-67 | a stored key returns its record untouched; an absent one inserts the new record; a negative key fails and changes nothing; the table stays keyed correctly |
| LoadSampleData.OutcomeOf | nyanya_backend/market_data/management/commands/load_sample_data.py:47-76 | a row fails exactly when a cell fails or the key is negative; a created record is new to the table, from the sample load, and is `RecordOf` the row's week, year and defaults; a row is Existing exactly when its cells convert and its key is already stored |
| LoadSampleData.LoadRow | nyanya_backend/market_data/management/commands/load_sample_data.py:47-76 | one row's step: its outcome, and the table gains exactly the created record |
| LoadSampleData.Handle | nyanya_backend/market_data/management/commands/load_sample_data.py:30-92 | the table is cleared when asked, even if the file then cannot be read; a read file leaves the table and both counters as the rows' load from that start |
| LoadSampleData.LoadAllKeeps | nyanya_backend/market_data/management/commands/load_sample_data.py:53-67 | a stored record is never changed or removed |
| LoadSampleData.LoadAllValid | nyanya_backend/market_data/management/commands/load_sample_data.py:53-67 | each record stays under its own key, and every new record carries the source 'sample_data_load' |
| LoadSampleData.LoadAllCounts | nyanya_backend/market_data/management/commands/load_sample_data.py:43-76 | the table grows by exactly the created count, and created plus errors is at most the number of rows |
| LoadSampleData.ErrorsIgnoreTable | nyanya_backend/market_data/management/commands/load_sample_data.py:47-76 | the failing rows are the same whatever the table holds: the rows that do not convert to a non-negative key, so their number is the row count less the loadable rows |
| LoadSampleData.LoadAllCovers | nyanya_backend/market_data/management/commands/load_sample_data.py:46-71 | after the load every loadable row's key is stored |
| LoadSampleData.LoadAllNothingNew | nyanya_backend/market_data/management/commands/load_sample_data.py:53-71 | rows whose keys are all stored create nothing and change nothing |
| LoadSampleData.ReloadChangesNothing | nyanya_backend/market_data/management/commands/load_sample_data.py:30-92 | loading the same file again leaves the table unchanged, creates nothing and reports the same errors |
| LoadSampleData.FirstRowWins | nyanya_backend/market_data/management/commands/load_sample_data.py:53-67 | for a key not stored before, the first loadable row with that key is the record stored |
| LoadSampleData.LoadAllStaysOut | nyanya_backend/market_data/management/commands/load_sample_data.py:53-67 | a key no loadable row names stays absent |

## Left out

- File and library I/O is not modelled: pickle loading, `Path.exists`, pandas and scikit-learn. Each artifact file is a value (absent, unreadable or read), the classifier is a pair of functions that may fail, and an encoder is the map of its vocabulary.
- The prints in `load_model` are not modelled. One of them formats the metadata accuracy after the flag is raised; a metadata file whose accuracy cannot be formatted would drop the flag again. Metadata values are typed here, so that case does not arise.
- The global `predictor` instance and the race between a reload and a request are not modelled; they concern concurrency.
- The ORM is replaced by sequences: queries, `order_by`, `first()`, slicing and `count()`. Record sequences are taken newest first, as the table's default ordering gives them. The views' query parameters (defaults 1, 20, 2025) are plain arguments.
- HTTP responses are not modelled: status codes, JSON layout, labels, icons, emoji and the text of the tips, details and insights. A tip is its kind and priority.
- Float formatting is not modelled: `round()`, `{:+.0f}%`, `{:,}`, `int(confidence*100)` and the donut percentages. Decimals and floats are modelled as reals.
- `datetime.now()` and `isocalendar()` are not modelled. The current time and week are parameters, and the several `now()` calls in `dashboard_cards` are one instant.
- PredictionViews.DashboardCardsAt: the accuracy and high-demand cards' fixed change figures ('+2.6%', '+5.8%', always up) are not represented.
- PredictionViews.ChartData, PredictionViews.TallyDemands and PredictionViews.MarketInsightsChart: on an unknown label the error names some unknown label, not necessarily the first one met.
- LoadSampleData.Lower: only ASCII letters are lower-cased; Python's full Unicode case mapping is not modelled.
- LoadSampleData.ValuesOf: `int()`, `float()` and `str()` on a pandas cell are not modelled. A cell arrives already converted, or as a failure when its column is missing or its conversion raises.
- LoadSampleData.Handle: the database's own limits are not modelled. String lengths and decimal digits are not checked, and the first-failing-cell order is not tracked.
- The command's messages (stdout and the error lines) and the `--file` default are not modelled. Reading the file is an input value that can be missing, unreadable or a list of rows.
- automation/weekly_retrain.py is not part of this model. It is git, subprocess and interactive input.
- The authentication views and serializers, the market-data serializers, views and URL files, and the predictions model file are not part of this model. They are framework configuration and storage.
