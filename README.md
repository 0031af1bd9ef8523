# Drift-detection model of the cycle-time drift detector

This project models, in Dafny, the data model behind a detector of drift in the
cycle time of a business process. The detector compares a reference window of
process events with a running window. A drift is first raised as a warning and
then confirmed. A confirmed drift is explained by a tree of causes.

What is modelled:

- `Events` — the `Event` record the detector consumes. It holds the case, the
  activity, the start and end instants, and an optional enablement instant and
  resource. Its cycle time is end minus start. The module also has the order in
  which the CSV reader sorts events: by end, then start, then enablement, with a
  missing enablement last. The file that defines `Event` is not part of this
  model, so its shape follows the uses in the modelled files.
- `DriftModel` — `expert/drift/model.py`:
  - the `Model` class: a window `start`/`end` and the list `data` of events in
    arrival order;
  - its operations: add, prune, move the window, emptiness, envelopment,
    completion, and the empty-sample short-circuit of the statistical comparison;
  - the `DriftLevel` enumeration, the `Drift` record and the `NO_DRIFT` constant;
  - `DriftCause` as an owned tree.
- `Input` — `expert/input/__init__.py`: the `Mapping` record and `dict_to_event`.
  It projects a keyed log record onto an `Event`.
- `Wrappers` — `Option` and `Result`.

Timestamps and durations are integers (seconds). Significance levels and p-values
are reals. The two-sample test is a function parameter that returns a p-value.

Facts about the code that the model keeps:

- Pruning keeps an event only when `start < event.start` and
  `event.end < end`; both bounds are strict.
- The comparison of two models is symmetric only when the test's p-value is
  symmetric in its two samples. `StatisticallyEqualsSymmetric` states it under
  that assumption.
- The default significance of the comparison, 0.05, is the constant
  `Model.DEFAULT_SIGNIFICANCE`; callers pass it explicitly.

## Model

| member | source | states |
|---|---|---|
| `DriftModel.Model.constructor` | expert/drift/model.py:87-90 | a new model has `end == start + length` and no events, so it is empty |
| `DriftModel.Model.IsEmpty` | expert/drift/model.py:92-95 | the model is empty exactly when it holds no event |
| `DriftModel.Model.Prune` | expert/drift/model.py:97-101 | the window is unchanged; `data` becomes the order-preserving filter of the old events by the strict window test; it never grows; every kept event starts after `start` and ends before `end` |
| `DriftModel.Model.Add` | expert/drift/model.py:103-105 | `data` becomes the old events followed by the new one: one longer, old prefix unchanged; the window is unchanged; the model is no longer empty |
| `DriftModel.Model.StatisticallyEquals` | expert/drift/model.py:107-119 | true whenever either model is empty, without using the test; otherwise true exactly when the p-value of the two cycle-time samples is at least the significance |
| `DriftModel.Model.Envelopes` | expert/drift/model.py:121-123 | for an event with a known enablement time: true exactly when `start < enabled < event.end < end` |
| `DriftModel.Model.UpdateTimeframe` | expert/drift/model.py:125-131 | the window becomes `start`, `start + length`, and exactly the old events strictly inside the new window remain, in order |
| `DriftModel.Model.Completed` | expert/drift/model.py:133-135 | an instant is completed exactly when it lies after `end`; `end` itself is not |
| `DriftModel.Retain` | expert/drift/model.py:101 | the filtered events are exactly the events of the input that lie strictly inside the window; the result is never longer than the input |
| `DriftModel.RetainAppend` | expert/drift/model.py:101 | filtering a concatenation is the concatenation of the filtered parts, so the relative order of kept events is preserved |
| `DriftModel.RetainAllInside` | expert/drift/model.py:101 | filtering keeps a sequence unchanged when every event lies inside the window |
| `DriftModel.RetainTwice` | expert/drift/model.py:125-131 | filtering by one window and then by another, nested or moved forward, equals filtering by their intersection |
| `DriftModel.RetainIdempotent` | expert/drift/model.py:97-101 | pruning twice gives the same events as pruning once |
| `DriftModel.RetainOrdered` | expert/input/csv.py:61-65 | pruning a stream sorted by end, start and enablement leaves it sorted |
| `Events.OrderedAppend` | expert/input/csv.py:61-65 | appending to a sorted sequence an event that its last event precedes keeps the sequence sorted |
| `DriftModel.CycleTimes` | expert/drift/model.py:110-113 | the test samples hold one cycle time, end minus start, per event, in order |
| `DriftModel.EnvelopedSurvivesPrune` | expert/drift/model.py:121-123 | an enveloped event that was enabled no later than it started is kept by pruning |
| `DriftModel.EnvelopedButPruned` | expert/drift/model.py:121-123 | for a model over the window 1 to 10, an event the model envelopes that started before it was enabled can still be pruned, because envelopment tests the enablement instant and pruning the start instant |
| `DriftModel.CompletedExcludes` | expert/drift/model.py:133-135 | an event ending at or after a completed instant lies outside the window, so pruning drops it |
| `DriftModel.StatisticallyEqualsSymmetric` | expert/drift/model.py:107-119 | with a test whose p-value is symmetric in its samples, comparing A with B gives the same answer as comparing B with A |
| `DriftModel.StatisticallyEqualsMonotone` | expert/drift/model.py:117 | a comparison that finds the models equal at one significance also finds them equal at any lower significance |
| `DriftModel.DriftLevel.Value` | expert/drift/model.py:42-47 | each level has a value below 3 |
| `DriftModel.LevelNumbering` | expert/drift/model.py:45-47 | the levels are numbered NONE 0, WARNING 1 and CONFIRMED 2, in increasing order |
| `DriftModel.LevelOf` | expert/drift/model.py:42-47 | exactly the values 0, 1 and 2 name a level, and the level named has that value |
| `DriftModel.LevelValueRoundTrip` | expert/drift/model.py:45-47 | looking up a level by its value gives that level back, so the three levels have distinct values |
| `DriftModel.NoDriftIsBare` | expert/drift/model.py:74 | `NO_DRIFT` has level NONE, no reference or running model and no first warning |
| `DriftModel.NewCause` | expert/drift/model.py:25-39 | a new cause stores `what`, `how` and `data` as given; its children are the given list, or none when no list is given |
| `DriftModel.Attach` | expert/drift/model.py:30-37 | creating a cause with a parent appends it after the parent's existing children and leaves the parent's own fields unchanged |
| `DriftModel.SizeAttach` | expert/drift/model.py:22-37 | attaching a subtree makes the parent's tree exactly as large as the parent and the subtree together |
| `Input.Columns` | expert/input/__init__.py:45-51 | the columns read are exactly, in this order, case, activity, start and end, then the resource column and the enablement column when the mapping names them |
| `Input.FirstMissing` | expert/input/__init__.py:45-51 | no column is reported exactly when all are present; a reported column is absent and every column read before it is present |
| `Input.DictToEvent` | expert/input/__init__.py:33-56 | on success the event copies case, activity, start and end from their columns, and resource and enablement from theirs when named (absent otherwise); a missing-key error happens exactly when a named column is absent and names the first such column in reading order |
| `Input.DictToEventComplete` | expert/input/__init__.py:45-51 | every record from which the mapping can read an event yields exactly that event |
| `Input.DictToEventRoundTrip` | expert/input/__init__.py:45-51 | writing an event into a record with a mapping of distinct columns and reading it back gives the same event |
| `Input.ProjectsUnique` | expert/input/__init__.py:45-51 | a record determines at most one event under a mapping |
| `Input.DefaultMappingDistinct` | expert/input/csv.py:17-18 | the default CSV mapping reads six distinct columns, so the round trip applies to it |

## Left out

- The Kolmogorov–Smirnov test and the conversion of cycle times to float seconds (expert/drift/model.py:110-113). These are floating-point numerics in a foreign library. They are replaced by a p-value function given as a parameter. The verbose log line of the p-value is left out as well.
- `Drift.__post_init__` (expert/drift/model.py:59-71): batch discovery and the processing- and waiting-time decompositions it calls are not part of this model. `Drift` is a plain record.
- `Pair`, the before/after pair of `how` and `data`, comes from a file that is not part of this model; it is modelled as a record of a reference value and a running value.
- The parent/children back-pointer machinery of the tree library behind `DriftCause`. Causes form an owned tree of values; giving a node a parent is modelled by `Attach`, which returns the parent with the node appended. Re-parenting an existing node and walking up to a parent are not modelled.
- The detection state machine (none, warning, confirmed), the window rolling, warm-up and overlap. They are not defined in the modelled files.
- Log reading (`expert/input/csv.py`): CSV parsing, ISO-8601 timestamp parsing, missing-value replacement, synthetic start/end events, logging. Only the resulting sort order is modelled, as `Events.Ordered`.
- The command line (`expert/cli.py`): argument parsing, mapping-file reading, logger setup, plotting and timing.
- Logging calls, the profiling decorator and `__repr__`.
- Integer timestamps stand for date-times; time zones and sub-second precision are not modelled.
- `Input.DictToEvent`: the source copies any value into the event. The model's event has typed fields, so a cell of the wrong kind is reported as an `IllTyped` error. A Null cell in the case, activity, start or end column is such an error too.
- `DriftModel.Model.Envelopes`: requires a known enablement time. The source compares a missing enablement time with an instant, which fails at run time.
