# Soil layer reduction and event cursor, in Dafny

This project models the core of the AgMIP common functions library.

- **Soil layer reduction.** `LayerReducer` normalises a soil profile and then merges adjacent
  layers in one pass. It merges when a decorator says two layers are similar, and always once
  the output holds the maximum number of layers.
  - The decorator `SAReducerDecorator` builds a merged layer. Thickness (sllb) is summed.
    Nitrate and ammonium are weighted by thickness when both layers have them. Every other
    parameter is the mean of the two values or of their defaults.
  - It decides similarity with `WaterReserveCriteria`: water reserves within 10 mm/m and bulk
    densities within 0.08 g/cm3, both rounded to two decimals.
  - `LayerReducerUtil` supplies the default table. It turns cumulative depths into thicknesses
    and merges soil layers with initial-condition layers position by position.
- **Event cursor.** `Event` is a cursor over the events of one type in an experiment's event
  list. It can update the current event or insert a new event in date order.
- **Daily records.** `ExperimentHelper` compares a yyyymmdd date with a month-day pattern and
  searches daily weather records for a day, trying a hinted index first.

How the model represents the source:

- Soil layers are `map<string, real>` once read as numbers. Text layers are
  `map<string, string>` where the code compares text: the initial-condition merge and the
  default table.
- Java exceptions that leave an operation are `Fault` values in a `Result`:
  - `MissingValue`: `parseFloat(null)`, or `null.equals`.
  - `EmptyProfile`: `get(0)` on an empty list.
  - `MissingLayer`: an index past the end of a list.
  - `ZeroThickness`: a weighted mean over a zero total thickness.
- The decorator interface becomes a datatype of two function values. The SA decorator
  provides one through `AsDecorator`.
- Classes whose fields the code updates are Dafny classes: `LayerReducer`,
  `WaterReserveCriteria`, `SAReducerDecorator` and `Event`. `Event` keeps its event list as a
  `seq` field.

The reduction pass is specified by the functions `Step`, `Run` and `Reduce`, parametrised by
the removal mode (see Findings). `LayerReducer.Process` is proved equal to `Reduce`. The
properties of the pass are lemmas about `Run`:

- bounds on the output length;
- the forced merge at the maximum;
- pass-through when no layer is similar;
- thickness and depth preservation under the SA decorator;
- stability of already emitted layers.

The search of the daily records is specified by `FirstMatch` and `DailyRecIndex` in the same
way, parametrised by the date comparison: `AsWritten` is `isSameDate` as the code has it and
`Corrected` reads the year from the date (see Findings). `GetDailyRecIndex` is proved equal to
the corrected search.

## Model

| member | source | states |
|---|---|---|
| LayerReducerUtil.DefaultValue | src/main/java/org/agmip/translators/soil/LayerReducerUtil.java:43-65 | The default text of the ten listed parameters, and "0.0" for any other key. DefaultTextValues and DefaultValueDenotesDefaultNumber state the numbers these texts denote |
| LayerReducerUtil.DefaultTextValues | src/main/java/org/agmip/translators/soil/LayerReducerUtil.java:47-56 | The default texts "0.1", "12.6", "0.25", "6.2", "0.0" read as the decimals 0.1, 12.6, 0.25, 6.2, 0 |
| LayerReducerUtil.DefaultValueDenotesDefaultNumber | src/main/java/org/agmip/translators/soil/LayerReducerUtil.java:43-65 | For every key, the default text reads as the number DefaultNumber gives: 12.6 slcly, 0.25 salb, 6.2 slphw, 0.1 sloc, and 0 for every other key, unknown keys included |
| LayerReducerUtil.ComputeSoilLayerSize | src/main/java/org/agmip/translators/soil/LayerReducerUtil.java:21-35 | Succeeds exactly when every layer has a depth, otherwise MissingValue. The result is LayerSizes of the input |
| LayerReducerUtil.LayerSizes | src/main/java/org/agmip/translators/soil/LayerReducerUtil.java:26-32 | Each layer keeps its keys, and its sllb becomes its depth minus the depth of the layer above, zero for the first. ThicknessesTelescope and TotalThicknessIsLastDepth state that the thicknesses add up to the depths |
| LayerReducerUtil.LayerSizesShape | src/main/java/org/agmip/translators/soil/LayerReducerUtil.java:26-32 | Same number of layers and same keys. Only sllb changes: the first keeps its depth, layer i gets depth(i) - depth(i-1) |
| LayerReducerUtil.ThicknessesTelescope | src/main/java/org/agmip/translators/soil/LayerReducerUtil.java:26-33 | The thicknesses of the first i+1 converted layers add up to the depth of layer i |
| LayerReducerUtil.TotalThicknessIsLastDepth | src/main/java/org/agmip/translators/soil/LayerReducerUtil.java:21-35 | The converted profile is as thick as the last depth |
| LayerReducerUtil.IncreasingDepthsGivePositiveThickness | src/main/java/org/agmip/translators/soil/LayerReducerUtil.java:30-31 | Strictly increasing positive depths give positive thicknesses |
| LayerReducerUtil.MergeAt | src/main/java/org/agmip/translators/soil/LayerReducerUtil.java:72-73 | The initial-condition entries are put into the soil layer exactly when its sllb text equals the icbl text. MergeAtMatched, MergeAtIdempotent and MergeComparesText state its effect |
| LayerReducerUtil.MergeLimit | src/main/java/org/agmip/translators/soil/LayerReducerUtil.java:71-72 | The first position with no initial-condition layer or no icbl, or the end. Every position before it is usable |
| LayerReducerUtil.MergeSoilAndInitializationData | src/main/java/org/agmip/translators/soil/LayerReducerUtil.java:67-79 | Positions before MergeLimit are merged. The rest are unchanged. There is no fault exactly when every position can be merged. The fault is MissingValue for a missing icbl and MissingLayer past the end of the initial conditions |
| LayerReducerUtil.MergeAtMatched | src/main/java/org/agmip/translators/soil/LayerReducerUtil.java:72-73 | A matching position gains every initial-condition entry, which wins over the soil's, and keeps its other soil entries |
| LayerReducerUtil.MergeAtIdempotent | src/main/java/org/agmip/translators/soil/LayerReducerUtil.java:72-73 | Merging the same initial conditions twice changes nothing more, when they carry no sllb |
| LayerReducerUtil.MergeComparesText | src/main/java/org/agmip/translators/soil/LayerReducerUtil.java:72 | Boundaries are compared as text: sllb "20.0" does not match icbl "20" |
| WaterReserve.WaterReserveCriteria.constructor | src/main/java/org/agmip/translators/soil/WaterReserveCriteria.java:22-25 | The thresholds start at 10 mm/m and 0.08 g/cm3 |
| WaterReserve.WaterReserveCriteria.GetFirstThreshold | src/main/java/org/agmip/translators/soil/WaterReserveCriteria.java:98-100 | The first threshold field. ThresholdsAreNotRead shows the decision never reads it |
| WaterReserve.WaterReserveCriteria.SetFirstThreshold | src/main/java/org/agmip/translators/soil/WaterReserveCriteria.java:102-104 | Sets the first threshold and leaves the second |
| WaterReserve.WaterReserveCriteria.GetSecondThreshold | src/main/java/org/agmip/translators/soil/WaterReserveCriteria.java:110-112 | The second threshold field. ThresholdsAreNotRead shows the decision never reads it |
| WaterReserve.WaterReserveCriteria.SetSecondThreshold | src/main/java/org/agmip/translators/soil/WaterReserveCriteria.java:114-116 | Sets the second threshold and leaves the first |
| WaterReserve.WaterReserveCriteria.Round | src/main/java/org/agmip/translators/soil/WaterReserveCriteria.java:49-51 | The rounded value is within half a hundredth of the input, in (r - 0.005, r + 0.005] |
| WaterReserve.WaterReserveCriteria.RoundIdempotent | src/main/java/org/agmip/translators/soil/WaterReserveCriteria.java:81-82 | Rounding a rounded value changes nothing, so the second rounding of the density rule has no effect |
| WaterReserve.WaterReserveCriteria.ShouldAggregateSoils | src/main/java/org/agmip/translators/soil/WaterReserveCriteria.java:62-92 | Decides exactly when both layers hold sldul, slll and slbdm, otherwise MissingValue. Says merge exactly when the rounded water reserve difference is at most 10 and the rounded density difference at most 0.08 |
| WaterReserve.WaterReserveCriteria.ShouldAggregateSymmetric | src/main/java/org/agmip/translators/soil/WaterReserveCriteria.java:71-82 | The decision, and its fault, do not depend on which layer is current |
| WaterReserve.WaterReserveCriteria.ShouldAggregateReflexive | src/main/java/org/agmip/translators/soil/WaterReserveCriteria.java:71-91 | A layer with the three fields is always similar to itself |
| WaterReserve.ThresholdsAreNotRead | src/main/java/org/agmip/translators/soil/WaterReserveCriteria.java:73-82 | Two criteria objects give the same decision whatever their threshold fields hold. The comparisons use the default constants |
| SAReducer.SAReducerDecorator.constructor | src/main/java/org/agmip/translators/soil/SAReducerDecorator.java:29-31 | A new criteria object with the default thresholds |
| SAReducer.SAReducerDecorator.GetCriteria | src/main/java/org/agmip/translators/soil/SAReducerDecorator.java:33-35 | The decorator's own criteria object, the one its ShouldAggregateSoils asks |
| SAReducer.SAReducerDecorator.ComputeInitialConditions | src/main/java/org/agmip/translators/soil/SAReducerDecorator.java:45-49 | Succeeds exactly when both layers hold the key and sllb and the thicknesses do not sum to zero. The value v satisfies v(tc + tp) = vc·tc + vp·tp. Otherwise the fault is MissingValue or ZeroThickness |
| SAReducer.SAReducerDecorator.MergedLayer | src/main/java/org/agmip/translators/soil/SAReducerDecorator.java:59-80 | A merged layer holds exactly the nine parameters in allParams |
| SAReducer.SAReducerDecorator.ComputeSoil | src/main/java/org/agmip/translators/soil/SAReducerDecorator.java:59-80 | The loop over the nine parameters computes MergedLayer, its faults included |
| SAReducer.SAReducerDecorator.MergedLayerValues | src/main/java/org/agmip/translators/soil/SAReducerDecorator.java:66-77 | With sllb in both and a non-zero total where weighting applies, the merge succeeds. sllb is the sum. icno3/icnh4 present in both are thickness-weighted. Every other parameter is the mean of the values or defaults |
| SAReducer.SAReducerDecorator.WeightedMeanBetween | src/main/java/org/agmip/translators/soil/SAReducerDecorator.java:45-49 | For positive thicknesses the weighted value lies between the two layers' values |
| SAReducer.SAReducerDecorator.MergedLayerSymmetric | src/main/java/org/agmip/translators/soil/SAReducerDecorator.java:59-80 | Merging current into previous or previous into current gives the same layer, or the same fault |
| SAReducer.SAReducerDecorator.MergedValueSymmetric | src/main/java/org/agmip/translators/soil/SAReducerDecorator.java:66-76 | Each parameter's merged value is symmetric in the two layers |
| SAReducer.SAReducerDecorator.MergeExamples | src/main/java/org/agmip/translators/soil/SAReducerDecorator.java:66-77 | 10 + 10 cm gives 20 cm. Nitrate 4 over 10 cm and 2 over 30 cm gives 2.5. A missing sloc counts as its default 0.1 |
| SAReducer.SAReducerDecorator.ShouldAggregateSoils | src/main/java/org/agmip/translators/soil/SAReducerDecorator.java:85-87 | The criteria object's decision |
| SAReducer.SAReducerDecorator.AsDecorator | src/main/java/org/agmip/translators/soil/LayerReducerDecorator.java:10-27 | The strategy's two operations are the decorator's decision and merge |
| LayerReduction.Normalize | src/main/java/org/agmip/translators/soil/LayerReducer.java:115-133 | Every layer completed from the first layer, with as many layers as the input. NormalizeShape, NormalizeIdempotent and NormalizeUniformKeys state its properties |
| LayerReduction.IndexOf | src/main/java/org/agmip/translators/soil/LayerReducer.java:72-73 | The first index holding an equal layer |
| LayerReduction.RemoveFirst | src/main/java/org/agmip/translators/soil/LayerReducer.java:72-74 | Without the first equal element: one shorter exactly when there is one, unchanged otherwise |
| LayerReduction.Step | src/main/java/org/agmip/translators/soil/LayerReducer.java:60-87 | One iteration. The first layer is appended. A later layer is merged with the previous one when the decorator says so or the output is at the maximum, and is appended otherwise. A decorator fault is the fault of the step. StepConsistent and StepCommitted state what it keeps |
| LayerReduction.Run | src/main/java/org/agmip/translators/soil/LayerReducer.java:58-88 | The iterations in input order, stopping at the first fault. RunConsistent, RunFailurePersists and TailRemovalKeepsEmittedLayers state its properties |
| LayerReduction.Reduce | src/main/java/org/agmip/translators/soil/LayerReducer.java:45-93 | Normalisation, then the output of Run. An empty profile is EmptyProfile. ReduceBounds and ReduceKeepsThickness state its properties |
| LayerReduction.RunFailurePersists | src/main/java/org/agmip/translators/soil/LayerReducer.java:65-71 | A fault in the decision or the merge ends the whole pass with that fault |
| LayerReduction.LayerReducer.constructor | src/main/java/org/agmip/translators/soil/LayerReducer.java:33-36 | The given decorator, and a maximum of 5 layers |
| LayerReduction.LayerReducer.GetMaxSoilLayers | src/main/java/org/agmip/translators/soil/LayerReducer.java:95-97 | The maximum field, which SetMaxSoilLayers sets and Process reads |
| LayerReduction.LayerReducer.SetMaxSoilLayers | src/main/java/org/agmip/translators/soil/LayerReducer.java:104-106 | Sets the maximum |
| LayerReduction.LayerReducer.NormalizeSoilLayers | src/main/java/org/agmip/translators/soil/LayerReducer.java:115-133 | The nested key loop computes Normalize: each layer completed from the first layer |
| LayerReduction.LayerReducer.Process | src/main/java/org/agmip/translators/soil/LayerReducer.java:45-93 | The loop computes Reduce with the decorator and the current maximum, faults included. An empty profile gives EmptyProfile |
| LayerReductionProperties.NormalizeShape | src/main/java/org/agmip/translators/soil/LayerReducer.java:118-129 | Every normalised layer has exactly the first layer's keys and its own value where it has one, else the first layer's. The first layer is unchanged |
| LayerReductionProperties.NormalizeIdempotent | src/main/java/org/agmip/translators/soil/LayerReducer.java:115-133 | Normalising twice is normalising once |
| LayerReductionProperties.NormalizeUniformKeys | src/main/java/org/agmip/translators/soil/LayerReducer.java:121-129 | A profile whose layers all have the first layer's keys is left as it is |
| LayerReductionProperties.StepConsistent | src/main/java/org/agmip/translators/soil/LayerReducer.java:60-87 | One iteration keeps the pass invariant Consistent |
| LayerReductionProperties.RunConsistent | src/main/java/org/agmip/translators/soil/LayerReducer.java:58-88 | The output is no longer than the input, nor than a maximum of at least 1. It is non-empty for non-empty input and ends with the previous layer. Forced merging means it has reached the maximum |
| LayerReductionProperties.ReduceBounds | src/main/java/org/agmip/translators/soil/LayerReducer.java:45-93 | A reduced profile has between 1 and |input| layers, and at most the maximum when that is at least 1 |
| LayerReductionProperties.MergeAtCap | src/main/java/org/agmip/translators/soil/LayerReducer.java:61-77 | At the maximum, the next layer is always merged. The output keeps its length and forced merging is on |
| LayerReductionProperties.CapIsKept | src/main/java/org/agmip/translators/soil/LayerReducer.java:61-77 | Once the output reaches the maximum it stays at the maximum, and every later step is a forced merge |
| LayerReductionProperties.NeverAggregatingKeepsLayers | src/main/java/org/agmip/translators/soil/LayerReducer.java:78-86 | With a decorator that never asks for a merge, a profile within the maximum passes through unchanged |
| LayerReductionProperties.NeverAggregatingReduceNormalizes | src/main/java/org/agmip/translators/soil/LayerReducer.java:45-93 | ... and the reduced profile is the normalised profile |
| LayerReductionProperties.NeverAggregatingCaps | src/main/java/org/agmip/translators/soil/LayerReducer.java:61-83 | With such a decorator that can always merge, the output has min(|input|, max) layers |
| LayerReductionProperties.StepCommitted | src/main/java/org/agmip/translators/soil/LayerReducer.java:72-77 | Removing the last layer, one iteration never changes the layers before the last |
| LayerReductionProperties.TailRemovalKeepsEmittedLayers | src/main/java/org/agmip/translators/soil/LayerReducer.java:72-77 | Removing the last layer, the output after n layers, less its last, is a prefix of the final output |
| SAReduction.ReadyMerge | src/main/java/org/agmip/translators/soil/SAReducerDecorator.java:66-77 | Two layers with the criteria fields and positive thickness are decided and merged without a fault. The merged layer is such a layer, and its thickness is the sum |
| SAReduction.ReadyStep | src/main/java/org/agmip/translators/soil/LayerReducer.java:60-87 | One iteration over such layers succeeds and adds the current layer's thickness to the output's total |
| SAReduction.ReadyRun | src/main/java/org/agmip/translators/soil/LayerReducer.java:58-88 | The pass over such layers succeeds and keeps the total thickness |
| SAReduction.ReduceKeepsThickness | src/main/java/org/agmip/translators/soil/LayerReducer.java:45-93 | Under the SA decorator, a profile whose first layer has the criteria fields and sllb, and whose thicknesses are positive, reduces without a fault. This holds in either removal mode and for any maximum. The result is as thick as the normalised profile |
| SAReduction.NormalizeKeepsThickness | src/main/java/org/agmip/translators/soil/LayerReducer.java:121-129 | When every layer has its own sllb, normalising keeps the total thickness |
| SAReductionDepth.ReducedProfileKeepsDepth | src/main/java/org/agmip/translators/soil/LayerReducerUtil.java:21-35 | Increasing depths, sized into thicknesses and reduced, reach exactly the last depth |
| RemovalFinding.FirstEqualRemovalReorders | src/main/java/org/agmip/translators/soil/LayerReducer.java:72-74 | Top, Other, Top, Similar reduces to Other, Top, merged when the first equal layer is removed. Removing the last layer gives Top, Other, merged |
| Events.ParseInt | src/main/java/org/agmip/common/Event.java:177 | A parsed value lies in the 32-bit range and comes from a non-empty text |
| Events.ParseIntText | src/main/java/org/agmip/common/Event.java:177 | Every 32-bit integer is read back from its decimal text |
| Events.ParseIntRejects | src/main/java/org/agmip/common/Event.java:176-181 | "", "-", "+", "2012a" and " 1" have no value. "+7" and "-7" read as 7 and -7 |
| Events.NextMatch | src/main/java/org/agmip/common/Event.java:139-148 | The first index at or after from whose event name is the type, or the end |
| Events.InsertIndex | src/main/java/org/agmip/common/Event.java:182-190 | The first index at or after from whose date, zero when absent, parses and is later than the day, or the end |
| Events.InsertionPoint | src/main/java/org/agmip/common/Event.java:174-194 | The insertion index is within the list, or just past it |
| Events.Insert | src/main/java/org/agmip/common/Event.java:132 | One longer. The event sits at the index, with the old events before and after it in order |
| Events.TemplateFor | src/main/java/org/agmip/common/Event.java:47-53 | The template has the handled type and the current event's keys |
| Events.NewEvent | src/main/java/org/agmip/common/Event.java:123-130 | The template, or only the type, with the given date or with no date. NewEventDate states its keys |
| Events.Updated | src/main/java/org/agmip/common/Event.java:98-114 | The current event gains key = value; past the last event of the type, a new event is inserted in date order; then the index moves on if asked. UpdateTouchesCurrentEvent and UpdateAddsOneEvent state both cases |
| Events.Event.constructor | src/main/java/org/agmip/common/Event.java:26-31 | The index is the first event of the type, the template is built from it, and the invariant holds |
| Events.Event.SetEventType | src/main/java/org/agmip/common/Event.java:37-42 | Same list. The index is the first event of the new type and the template is rebuilt |
| Events.Event.SetTemplate | src/main/java/org/agmip/common/Event.java:47-53 | The template is TemplateFor the current index. Nothing else changes |
| Events.Event.RemoveEvent | src/main/java/org/agmip/common/Event.java:58-64 | With a current event: it is removed and the index is the next event of the type from its position. Otherwise nothing changes |
| Events.Event.UpdateEvent | src/main/java/org/agmip/common/Event.java:73-75 | Updated with the template, moving on |
| Events.Event.UpdateEventMoving | src/main/java/org/agmip/common/Event.java:85-87 | Updated with the template |
| Events.Event.UpdateEventWith | src/main/java/org/agmip/common/Event.java:98-114 | The new list and index are Updated of the old ones. The template and type are unchanged and the invariant holds |
| Events.Event.AddEvent | src/main/java/org/agmip/common/Event.java:123-134 | The new event is NewEvent. It goes in at InsertionPoint, which becomes the index |
| Events.Event.GetNextEventIndex | src/main/java/org/agmip/common/Event.java:139-148 | The index becomes NextMatch from the index after it. Nothing else changes |
| Events.Event.IsEventExist | src/main/java/org/agmip/common/Event.java:155-157 | The index is within the list. GetCurrentEvent returns an event exactly then |
| Events.Event.GetCurrentEvent | src/main/java/org/agmip/common/Event.java:164-166 | The event at the index exactly when the index is within the list |
| Events.Event.GetInertIndex | src/main/java/org/agmip/common/Event.java:174-194 | The index becomes InsertionPoint for the event. Nothing else changes |
| EventProperties.InsertIndexSplits | src/main/java/org/agmip/common/Event.java:182-190 | In a date-ordered list, every event before the index is no later than the day and every event from it on is later |
| EventProperties.InsertBetweenSorted | src/main/java/org/agmip/common/Event.java:132 | An event whose date lies between its neighbours keeps the list date-ordered |
| EventProperties.InsertKeepsDateOrder | src/main/java/org/agmip/common/Event.java:174-194 | A dated event inserted by a search from the start goes after its day and before later days, and the list stays date-ordered |
| EventProperties.UpdateTouchesCurrentEvent | src/main/java/org/agmip/common/Event.java:99-100 | With a current event, only that event changes, gaining key = value. Without moving on, the index stays |
| EventProperties.UpdateAddsOneEvent | src/main/java/org/agmip/common/Event.java:101-113 | Past the last event of the type, exactly one event is added at the insertion point. It holds the value, every other template entry and the type. The old events keep their order. Moving on goes strictly past it |
| EventProperties.NewEventDate | src/main/java/org/agmip/common/Event.java:123-130 | A new event has the given date, or none. Without the template it holds only the type and the date |
| ExperimentHelper.Without | src/main/java/org/agmip/functions/ExperimentHelper.java:341 | The string without the character, the other characters in their order: never longer, no such character left, every other character keeping its count |
| ExperimentHelper.RemoveAll | src/main/java/org/agmip/functions/ExperimentHelper.java:341 | Never longer. For a one-character separator it is Without, so the other characters stay in their order |
| ExperimentHelper.EndsWith | src/main/java/org/agmip/functions/ExperimentHelper.java:353 | The suffix is the last characters of the string |
| ExperimentHelper.IsSameDate | src/main/java/org/agmip/functions/ExperimentHelper.java:339-354 | The comparison as written. AsWrittenLeapDayIsAlwaysTheTwentyEighth and IsSameDateOtherDays state what it decides |
| ExperimentHelper.IsSameDateCorrected | src/main/java/org/agmip/functions/ExperimentHelper.java:339-354 | The comparison with the year read from the date. LeapDayRule and IsSameDateOtherDays state what it decides |
| ExperimentHelper.IsSameDateOtherDays | src/main/java/org/agmip/functions/ExperimentHelper.java:339-354 | For any pattern other than the 29th of February, the comparison is a suffix test, as written and as corrected |
| ExperimentHelper.AsWrittenLeapDayIsAlwaysTheTwentyEighth | src/main/java/org/agmip/functions/ExperimentHelper.java:342-347 | As written, the 29th of February matches exactly the dates ending 0228, in every year |
| ExperimentHelper.RemovesDash | src/main/java/org/agmip/functions/ExperimentHelper.java:341 | "02-29" without "-" is "0229" |
| ExperimentHelper.RemovesDashNewYear | src/main/java/org/agmip/functions/ExperimentHelper.java:341 | "01-01" without "-" is "0101" |
| ExperimentHelper.TwoDigitsParse | src/main/java/org/agmip/functions/ExperimentHelper.java:344 | Two decimal digits parse to ten times the first digit plus the second |
| ExperimentHelper.LeapDayNeverMatches | src/main/java/org/agmip/functions/ExperimentHelper.java:339-354 | As written, 20120229 does not match 02-29 and 20120228 does |
| ExperimentHelper.CorrectedLeapDayUnfold | src/main/java/org/agmip/functions/ExperimentHelper.java:342-353 | Corrected, for a date whose year digits parse, the 29th of February is a test for 0228 when they are not a multiple of four and for 0229 otherwise |
| ExperimentHelper.LeapDayMatchesWhenCorrected | src/main/java/org/agmip/functions/ExperimentHelper.java:339-354 | Corrected, 20120229 matches 02-29 and 20120228 does not |
| ExperimentHelper.LeapDayRule | src/main/java/org/agmip/functions/ExperimentHelper.java:342-353 | Corrected, an eight-digit date matches the 29th of February exactly when it is the 29th, if its two year digits are a multiple of four, and exactly when it is the 28th otherwise. So every such leap-year date matches its own month-day pattern |
| ExperimentHelper.FirstMatch | src/main/java/org/agmip/functions/ExperimentHelper.java:382-388 | For either comparison: the first record at or after from dated on the day, or the end |
| ExperimentHelper.FirstMatchSkips | src/main/java/org/agmip/functions/ExperimentHelper.java:382-388 | A search passes over records not dated on the day: starting before them or after them finds the same record |
| ExperimentHelper.DailyRecIndex | src/main/java/org/agmip/functions/ExperimentHelper.java:367-389 | For either comparison, the hint comes first: a record dated on the day at start + expectedDiff is the result, else one at the next index, even when an earlier record from start matches too. When both hints miss, or the hint is past the end, the result is the plain search from start. A found index is in bounds and dated on the day. The end is returned only when no record from start is. There is no index exactly when the code reads out of bounds |
| ExperimentHelper.HintIsAShortcut | src/main/java/org/agmip/functions/ExperimentHelper.java:367-389 | When no record from start up to the hint is dated on the day, the result is the plain search from start. There is no result exactly when the hint is the last record and does not match |
| ExperimentHelper.HintBeatsEarlierMatch | src/main/java/org/agmip/functions/ExperimentHelper.java:369-374 | For records of 2012-01-01, 2012-01-02 and 2013-01-01, the pattern 01-01, start 0 and a hint of 2: the plain search finds index 0, the hinted search index 2 |
| ExperimentHelper.SearchDiffersOnLeapDay | src/main/java/org/agmip/functions/ExperimentHelper.java:367-389 | For records dated 20120228 and 20120229 and the pattern 02-29, the search as written finds index 0, the corrected search index 1 |
| ExperimentHelper.GetDailyRecIndex | src/main/java/org/agmip/functions/ExperimentHelper.java:367-389 | The hint, its successor and the loop compute DailyRecIndex with the corrected comparison |

## Left out

- Floating point: layer values and thresholds are exact reals.
  - `Round` is an exact floor of r·100 + 0.5.
  - The Float text of merged values (`Float.toString`) is not modelled. Layers stay numeric after reading.
- SAReducer.SAReducerDecorator.MergedLayer: a weighted nitrate or ammonium mean over a zero total thickness gives the fault ZeroThickness. Java's float division gives NaN or Infinity there.
- SAReducer.SAReducerDecorator.ComputeSoil: only absent values are faults. A value that is not a number (NumberFormatException) cannot occur, because numeric layers hold numbers.
- LayerReducerUtil.ComputeSoilLayerSize: the subtraction is exact. The Float rounding of each thickness is not modelled.
- LayerReduction.LayerReducer.Process takes out the last output layer on a merge, which is the corrected behaviour (see Findings). The removal as written is `Reduce` with `FirstEqual`. Every lemma about the pass except `TailRemovalKeepsEmittedLayers` holds for both.
- LayerReduction.LayerReducer.NormalizeSoilLayers: the `referenceSoil != null` test is not modelled. A sequence of maps holds no null.
- Logging through slf4j is not modelled.
- Aliasing is not modelled:
  - `Event` works on the caller's list in place; the model keeps its own `seq`.
  - The init merge changes the soil maps in place; the model returns the new list.
- Events.ValueOr: `MapUtil.getValueOr` is not part of this model. It is taken to return the value when the key is present and the default otherwise.
  - A `null` date stored by `addEvent` is modelled as no date.
  - This differs from a stored null only in `getInertIndex`: the model reads the absent date as "0" where a stored null would be skipped.
- Events.ParseInt reads ASCII digits only. The other Unicode digits that `Integer.parseInt` accepts are not modelled.
- `FIRST_THRESHOLD_DEFAULT` and `SECOND_THRESHOLD_DEFAULT` are public, static and not final. They are modelled as the constants they are initialised to.
- The rest of `ExperimentHelper` is not part of this model; only `isSameDate` and `getDailyRecIndex` are. `SoilHelper` and `Functions` are not part of this model either.
- LayerReduction.Reduce: an empty profile is the fault `EmptyProfile`, because `get(0)` throws on it.
- LayerReducerUtil.MergeSoilAndInitializationData stops at the first position with no initial-condition layer (`MissingLayer`) or no icbl (`MissingValue`); the positions before it stay merged.
- LayerReduction.IndexOf and `Reduce` with `FirstEqual` compare layers as numbers. `ArrayList.remove(Object)` compares the text maps, where "20" and "20.0" differ. Layers equal as numbers but written differently are equal here and not in the code.
- ExperimentHelper.GetDailyRecIndex uses the corrected comparison `IsSameDateCorrected` (see Findings). The code calls `isSameDate` as written, which is `IsSameDate`, so for the pattern 02-29 the two can return different records.
- ExperimentHelper.FirstMatch, ExperimentHelper.DailyRecIndex and ExperimentHelper.HintIsAShortcut take the comparison as a parameter. With `AsWritten` they model the code as written. `SearchDiffersOnLeapDay` shows a search where the two comparisons differ.

## Findings

| source | as written | input that shows it | evidently intended | confidence | as-written member | corrected member |
|---|---|---|---|---|---|---|
| src/main/java/org/agmip/translators/soil/LayerReducer.java:72-74 | On a merge, `remove(previousSoil)` drops the first output layer equal in value to the previous layer, which need not be the last one | With the SA decorator and the default maximum, Top, Other, Top, Similar: Top and Similar differ only in thickness, and Other's water reserve is 100 mm/m higher. The output is Other, Top, merged, so the top layer is no longer first | The previous layer is always the last of the output, and that one should go. The output is then Top, Other, merged, and layers already passed never move | high, not executed | RemovalFinding.FirstEqualRemovalReorders | LayerReductionProperties.TailRemovalKeepsEmittedLayers |
| src/main/java/org/agmip/functions/ExperimentHelper.java:342-347 | The leap-year test parses characters 2-3 of the month-day pattern, which are always "29", so the 29th of February always falls back to the 28th | isSameDate("20120229", "02-29", "-") is false and isSameDate("20120228", "02-29", "-") is true | Parse characters 2-3 of the full date (the last two year digits). In a year divisible by four, the 29th then matches itself | high, not executed | ExperimentHelper.LeapDayNeverMatches | ExperimentHelper.LeapDayRule |
