# B1520A capacitance unit driver and schema upgrade 5 → 6, modelled in Dafny

This project models two small pieces of QCoDeS.

The first is the host-side logic of the driver for the Keysight B1520A capacitance
measurement unit:

- the learn-query parsers of the `WTDCV`, `WDCV` and `ACT` setting groups;
- the format check of a spot capacitance reading;
- the de-interleaving of CV sweep data;
- the shape and polarity rules of the four CV sweep modes;
- the driver state guarded by its setters: the auto-abort flag and the post-sweep condition of the `cv_sweep` submodule, the ranging mode and fixed range of the module, and the `setup_fnc_already_run` flag that gates a sweep measurement.

The second is the database upgrade from schema version 5 to 6. It rewrites the description of
every run `1..max(run_id)` so that `version` is its first key, inside one transaction that is
rolled back as a whole when any run fails.

Files:

- `wrappers.dfy`: `Option` and `Result`.
- `errors.dfy`: the Python exceptions the driver's paths raise, as values.
- `text.dfy`: Python's `str.split`, `str.join`, slicing and list reversal, with the split/join round trips.
- `b1520a_responses.dfy`: the three learn-query parsers.
  - The regular expression `<MNEMONIC>(?P<f1>.+?),…,(?P<fk>.+?)(;|$)` is modelled as Python's backtracking search: leftmost start, lazy fields, `.` excluding a newline, and `$` also matching before a final newline.
  - It is proved sound, complete (leftmost) and exact on the lines the instrument writes, also when a record follows another one in the same answer (the WDCV and WTDCV records both answer the same learn query).
  - The module also holds the spot check and `parse_sweep_data`.
- `b1520a_sweep.dfy`: `_cv_sweep_voltages`.
- `b1520a_driver.dfy`: the classes `CVSweep` and `B1520A`, plus the `Link` that records the commands sent.
- `upgrade_5_to_6.dfy`:
  - a JSON value type;
  - the per-run rewrite;
  - the `runs` table as the class `RunStore`;
  - the transaction: the loop `RewriteRuns` and its `Rollback`.

Python's `int()` and `float()` on text are the parameter `Numerals`. `np.linspace` and
`np.logspace` are the parameter `Spacing`. The instrument's answers (a learn-query response,
a spot reading, the sweep data, the error message) are parameters of the methods that ask for
them.

Details of the source that the model keeps as they are:

- `upgrade_5_to_6` always writes `version` 0 and drops any `version` already stored (upgrade_5_to_6.py:41-42).
- The post-sweep setter's Warning spells "volatge" (KeysightB1520A.py:151-152).
- The ADC parser's not-found message says "ATC" (KeysightB1520A.py:507).

## Model

| member | source | states |
|---|---|---|
| Text.JoinSplit | qcodes/instrument_drivers/Keysight/keysightb1500/KeysightB1520A.py:674 | joining the pieces of `str.split(',')` gives back the text |
| Text.SplitJoin | qcodes/instrument_drivers/Keysight/keysightb1500/KeysightB1520A.py:674 | splitting a join of comma-free pieces gives back exactly those pieces |
| B1520AResponses.LazySound | qcodes/instrument_drivers/Keysight/keysightb1500/KeysightB1520A.py:479-481 | a lazy-field match found by the engine consists of comma-separated one-line fields followed by the terminator |
| B1520AResponses.LazyComplete | qcodes/instrument_drivers/Keysight/keysightb1500/KeysightB1520A.py:479-481 | whenever such fields occur after the mnemonic, the backtracking engine finds a match there |
| B1520AResponses.Lazy | qcodes/instrument_drivers/Keysight/keysightb1500/KeysightB1520A.py:132-134 | the backtracking match of lazy `(.+?)` groups returns one nonempty text per remaining group |
| B1520AResponses.FieldsFrom | qcodes/instrument_drivers/Keysight/keysightb1500/KeysightB1520A.py:132-134 | one text per group, each of at least one character |
| B1520AResponses.SearchFrom | qcodes/instrument_drivers/Keysight/keysightb1500/KeysightB1520A.py:479-482 | `re.search` from a position: a match starts at or after it, with the mnemonic there and one text per named group |
| B1520AResponses.FindRecord | qcodes/instrument_drivers/Keysight/keysightb1500/KeysightB1520A.py:132-135 | `re.search` over the whole response: a match has the mnemonic at its start and one text per named group |
| B1520AResponses.SearchFromComplete | qcodes/instrument_drivers/Keysight/keysightb1500/KeysightB1520A.py:479-482 | `re.search` finds a match no later than any position where the record occurs |
| B1520AResponses.FindRecordSound | qcodes/instrument_drivers/Keysight/keysightb1500/KeysightB1520A.py:479-482 | a found record has exactly one text per named group and really occurs in the response at the reported start |
| B1520AResponses.FindRecordComplete | qcodes/instrument_drivers/Keysight/keysightb1500/KeysightB1520A.py:479-484 | if the record occurs anywhere, the search does not fail (no spurious "not found" ValueError) |
| B1520AResponses.LazyExact | qcodes/instrument_drivers/Keysight/keysightb1500/KeysightB1520A.py:479-481 | with clean fields the lazy groups capture exactly the instrument's fields |
| B1520AResponses.SearchSkips | qcodes/instrument_drivers/Keysight/keysightb1500/KeysightB1520A.py:479-482 | `re.search` moves past every position where the mnemonic does not start |
| B1520AResponses.FindRecordExact | qcodes/instrument_drivers/Keysight/keysightb1500/KeysightB1520A.py:479-482 | a record with clean fields, with no earlier start of the mnemonic, is the match found, at its position and with exactly its fields |
| B1520AResponses.LearnLineFound | qcodes/instrument_drivers/Keysight/keysightb1500/KeysightB1520A.py:254-259 | a record written from the set template's fields, after any text in which the mnemonic does not start, is found where it begins with exactly those fields |
| B1520AResponses.SecondRecordFound | qcodes/instrument_drivers/Keysight/keysightb1500/KeysightB1520A.py:131-135 | the second of two `;`-separated records in one answer is found where it begins, when its mnemonic cannot start inside the first record |
| B1520AResponses.SweepSettingsFound | qcodes/instrument_drivers/Keysight/keysightb1500/KeysightB1520A.py:122-127 | WDCV and WTDCV answer the same learn query; in a line carrying both, in either order, each parser's record is found where it begins with exactly its fields |
| B1520AResponses.Convert | qcodes/instrument_drivers/Keysight/keysightb1500/KeysightB1520A.py:139-140 | every group is converted in order; the result is Ok iff every text converts, and otherwise the error names the first text that does not |
| B1520AResponses.ParseRecord | qcodes/instrument_drivers/Keysight/keysightb1500/KeysightB1520A.py:478-484 | ValueError with the group's message iff no record is found; on success one field per group with the group's name and type, in template order |
| B1520AResponses.ParseSweepDelays | qcodes/instrument_drivers/Keysight/keysightb1500/KeysightB1520A.py:131-141 | five floats named hold, delay, step_delay, trigger_delay, measure_delay (the WTDCV set-template order), or ValueError when WTDCV is not found |
| B1520AResponses.ParseSweepSteps | qcodes/instrument_drivers/Keysight/keysightb1500/KeysightB1520A.py:478-493 | overwriting the matched texts one by one yields chan, sweep_mode (ints), sweep_start, sweep_end (floats), sweep_steps (int), or ValueError when WDCV is not found |
| B1520AResponses.ParseAdcMode | qcodes/instrument_drivers/Keysight/keysightb1500/KeysightB1520A.py:504-511 | adc_mode then adc_coef, both ints, or ValueError when ACT is not found |
| B1520AResponses.ParseRecordRoundTrip | qcodes/instrument_drivers/Keysight/keysightb1500/KeysightB1520A.py:249-261 | a learn line that reports typed values in set-template order, each written as a clean field that `int()`/`float()` reads back to it, parses back to those values under the template's names, also after other records of the same answer in which the mnemonic does not start |
| B1520AResponses.SpotCapacitance | qcodes/instrument_drivers/Keysight/keysightb1500/KeysightB1520A.py:418-427 | accepted iff exactly two tokens, tagged C then Y; then their two values in token order; otherwise ValueError("Result format not supported.") |
| B1520AResponses.SpotReadingAccepted | qcodes/instrument_drivers/Keysight/keysightb1500/KeysightB1520A.py:418-427 | a C-then-Y reading yields its values and the swapped reading is rejected |
| B1520AResponses.TokenValues | qcodes/instrument_drivers/Keysight/keysightb1500/KeysightB1520A.py:675 | every token's value after its three-character tag, in order, or the error of the first one `float()` rejects |
| B1520AResponses.SweepData | qcodes/instrument_drivers/Keysight/keysightb1500/KeysightB1520A.py:672-686 | Ok iff every token converts, with the first conversion error otherwise; the two lists interleave back to the converted values, the first at most one longer |
| B1520AResponses.DealAlternately | qcodes/instrument_drivers/Keysight/keysightb1500/KeysightB1520A.py:678-682 | the loop puts the values at even positions in the first list and those at odd positions in the second, in order |
| B1520AResponses.ParseSweepData | qcodes/instrument_drivers/Keysight/keysightb1500/KeysightB1520A.py:672-686 | the loop deals the values at even positions to the first list and odd positions to the second, preserving order, so their lengths are ceil(n/2) and floor(n/2) |
| B1520AResponses.DeinterleaveInterleave | qcodes/instrument_drivers/Keysight/keysightb1500/KeysightB1520A.py:678-682 | splitting an interleaving of two lists by position gives back both lists |
| B1520AResponses.InterleaveDeinterleave | qcodes/instrument_drivers/Keysight/keysightb1500/KeysightB1520A.py:678-682 | the even and odd lists interleave back to the values: nothing is lost or reordered |
| B1520AResponses.SweepTokenValues | qcodes/instrument_drivers/Keysight/keysightb1500/KeysightB1520A.py:675 | tokens made of a three-character tag and a text that `float()` reads back to its value convert back to exactly those values |
| B1520AResponses.SweepDataRoundTrip | qcodes/instrument_drivers/Keysight/keysightb1500/KeysightB1520A.py:672-686 | a sweep response interleaving the primary and secondary values, each written as comma-free text that `float()` reads back to it, parses back to exactly those two lists |
| B1520ASweep.Sign | qcodes/instrument_drivers/Keysight/keysightb1500/KeysightB1520A.py:344 | `sign`: -1, 0 or 1, zero exactly for 0 and negative exactly for negative values |
| B1520ASweep.TwoWaySweep | qcodes/instrument_drivers/Keysight/keysightb1500/KeysightB1520A.py:366-385 | `linear_2way_sweep` / `log_2way_sweep`: `steps` values, a palindrome, beginning with the spacing's half list, with `end` in the middle for an odd count |
| B1520ASweep.TwoWay | qcodes/instrument_drivers/Keysight/keysightb1500/KeysightB1520A.py:366-385 | half list, then end when the count is odd, then the half list reversed: length `steps`, a palindrome, starting with the half list, with `end` in the middle for an odd count |
| B1520ASweep.CvSweepVoltages | qcodes/instrument_drivers/Keysight/keysightb1500/KeysightB1520A.py:343-392 | AssertionError iff a log mode (2 or 4) has start and end of opposite nonzero sign; Ok iff the mode is 1 to 4, the count is not negative and the polarity check passes; then `steps` voltages, a palindrome in the two-way modes with `end` as midpoint for an odd count |
| B1520ASweep.TwoWayRetraces | qcodes/instrument_drivers/Keysight/keysightb1500/KeysightB1520A.py:366-385 | a two-way sweep returns along the voltages it went out on, and those are the spacing's half list |
| B1520ADriver.Link.Write | qcodes/instrument_drivers/Keysight/keysightb1500/KeysightB1520A.py:146 | `self.write`: the command is appended to what has been sent |
| B1520ADriver.CVSweep.constructor | qcodes/instrument_drivers/Keysight/keysightb1500/KeysightB1520A.py:28-30 | auto abort starts True and the post-sweep condition starts START |
| B1520ADriver.CVSweep.SetSweepAutoAbort | qcodes/instrument_drivers/Keysight/keysightb1500/KeysightB1520A.py:143-146 | stores the flag, keeps the post-sweep condition, and sends one WMDCV command with the flag alone |
| B1520ADriver.CVSweep.SetPostSweepVoltageCond | qcodes/instrument_drivers/Keysight/keysightb1500/KeysightB1520A.py:148-156 | Warning iff auto abort is falsy, and then nothing is stored or sent; otherwise stores the value and sends it together with the current abort flag |
| B1520ADriver.B1520A.constructor | qcodes/instrument_drivers/Keysight/keysightb1500/KeysightB1520A.py:174-182 | setup flag False, ranging mode AUTO, no fixed range, on the module's own channel |
| B1520ADriver.B1520A.SetRangingMode | qcodes/instrument_drivers/Keysight/keysightb1500/KeysightB1520A.py:535-544 | AUTO clears the fixed range and any other mode keeps it; sends RC with the new (mode, range) pair |
| B1520ADriver.B1520A.SetMeasurementRangeForNonAuto | qcodes/instrument_drivers/Keysight/keysightb1500/KeysightB1520A.py:546-553 | stores the range, never changes the ranging mode, and sends RC with the current mode and the new range |
| B1520ADriver.B1520A.SetMeasurementMode | qcodes/instrument_drivers/Keysight/keysightb1500/KeysightB1520A.py:522-524 | sends one MM command for the module's channel |
| B1520ADriver.B1520A.GetCapacitance | qcodes/instrument_drivers/Keysight/keysightb1500/KeysightB1520A.py:409-427 | sends MM (spot C) and TC (auto ranging), then accepts the reading exactly as the spot check does |
| B1520ADriver.B1520A.SetupStaircaseCv | qcodes/instrument_drivers/Keysight/keysightb1500/KeysightB1520A.py:648-668 | the flag becomes True only when the setup got through and the error message is `+0,"No Error."`, and is never reset; a refused post-sweep condition ends the setup with its Warning; otherwise the stored settings and the command sequence are stated |
| B1520ADriver.B1520A.RunSweep | qcodes/instrument_drivers/Keysight/keysightb1500/KeysightB1520A.py:713-729 | Warning and nothing sent unless the setup flag is set; otherwise the setpoints are the sweep voltages (their error propagates before XE is sent), then XE is sent and the answer is split as `parse_sweep_data` does |
| Upgrade5To6.Get | qcodes/dataset/sqlite/db_upgrades/upgrade_5_to_6.py:42 | a key is found iff some member has it |
| Upgrade5To6.GetLast | qcodes/dataset/sqlite/db_upgrades/upgrade_5_to_6.py:40-42 | the value found is that of the last member with the key, as in the dict `json.loads` builds |
| Upgrade5To6.Rewrite | qcodes/dataset/sqlite/db_upgrades/upgrade_5_to_6.py:36-43 | a missing description always converts; a stored one converts iff it is a JSON object with `interdependencies`; text that is not JSON fails with JSONDecodeError, and JSON that is not an object with TypeError |
| Upgrade5To6.RewriteShape | qcodes/dataset/sqlite/db_upgrades/upgrade_5_to_6.py:32-43 | the result has exactly the keys `version` and `interdependencies`, in this order; `version` is 0; `interdependencies` is the stored one verbatim, or the serialized empty one when there was no description |
| Upgrade5To6.RewriteIdempotent | qcodes/dataset/sqlite/db_upgrades/upgrade_5_to_6.py:40-43 | rewriting a rewritten description gives it back unchanged |
| Upgrade5To6.FirstFailing | qcodes/dataset/sqlite/db_upgrades/upgrade_5_to_6.py:34-44 | the least run in the range that cannot be upgraded, or none iff every run can |
| Upgrade5To6.Upgraded | qcodes/dataset/sqlite/db_upgrades/upgrade_5_to_6.py:29-44 | the store after the loop over runs `1..n`, defined run by run; what it holds is stated by `UpgradedAt`, `UpgradedShape` and `UpgradeIdempotent` |
| Upgrade5To6.UpgradedAt | qcodes/dataset/sqlite/db_upgrades/upgrade_5_to_6.py:34-44 | the upgrade keeps every run, gives each run in `1..n` its rewritten description, and leaves every other run alone |
| Upgrade5To6.UpgradedShape | qcodes/dataset/sqlite/db_upgrades/upgrade_5_to_6.py:34-44 | after the upgrade each run in `1..n` has `version` 0 first, then its own `interdependencies` |
| Upgrade5To6.UpgradeIdempotent | qcodes/dataset/sqlite/db_upgrades/upgrade_5_to_6.py:34-44 | upgrading an upgraded store succeeds and changes nothing |
| Upgrade5To6.Accesses | qcodes/dataset/sqlite/db_upgrades/upgrade_5_to_6.py:29-44 | the loop over `range(lo, hi)` makes two accesses per run |
| Upgrade5To6.AccessesAt | qcodes/dataset/sqlite/db_upgrades/upgrade_5_to_6.py:29-44 | runs `lo..hi-1` are visited in increasing order, each read once and then written once |
| Upgrade5To6.RunStore.constructor | qcodes/dataset/sqlite/db_upgrades/upgrade_5_to_6.py:13 | a store with the given descriptions and an empty access log |
| Upgrade5To6.RunStore.MaxRunId | qcodes/dataset/sqlite/db_upgrades/upgrade_5_to_6.py:21-22 | NULL iff there are no runs, otherwise the largest run id |
| Upgrade5To6.RunStore.GetRunDescription | qcodes/dataset/sqlite/db_upgrades/upgrade_5_to_6.py:35 | logs one read of the run and changes nothing else; the stored description, or a failure iff the run has no row |
| Upgrade5To6.RunStore.UpdateRunDescription | qcodes/dataset/sqlite/db_upgrades/upgrade_5_to_6.py:44 | writes the run's description (nothing for a run without a row) and logs one write of the run |
| Upgrade5To6.RunStore.UpgradeRun | qcodes/dataset/sqlite/db_upgrades/upgrade_5_to_6.py:35-44 | reads the run; fails iff the run cannot be upgraded, and then nothing is written; otherwise writes exactly that run's rewrite |
| Upgrade5To6.RunStore.RewriteRuns | qcodes/dataset/sqlite/db_upgrades/upgrade_5_to_6.py:29-44 | visits runs `1..n` in increasing order, each read and then written once; fails iff some run fails, reporting the first, after reading it and without writing it, with the runs before it already rewritten; on success the store is the upgraded store |
| Upgrade5To6.RunStore.Rollback | qcodes/dataset/sqlite/db_upgrades/upgrade_5_to_6.py:28 | the transaction's rollback restores every description and leaves the access log alone |
| Upgrade5To6.RunStore.Upgrade | qcodes/dataset/sqlite/db_upgrades/upgrade_5_to_6.py:21-44 | with no runs, the count is 0 and the access log and the store are unchanged (nothing is read or written); otherwise the count is the largest run id; a failure on any run leaves every description unchanged (atomic), after runs `1..k-1` were read and written and run `k` was read; on success exactly runs `1..n` are rewritten, each read and then written, in order, and nothing else changes |

## Left out

- Instrument I/O is not modelled. `write` and `ask` become an append to `Link.sent`, and each answer is a parameter. `MessageBuilder`'s command text is not modelled: a command is its mnemonic and arguments.
- Numeric conversion is abstract. `int()` and `float()` on text, `np.linspace` and `np.logspace` are function parameters, so the voltage values, the logarithms and numpy's float rounding are not modelled. Only lengths, positions and the shapes built from them are.
- The spot pattern's regular expression (`_pattern`, `re.finditer`) is not modelled. The spot check works on the tokens it finds: an optional status/channel/type tag and a value.
- B1520ASweep.CvSweepVoltages: states nothing about the values of the linear and log sweeps beyond their count, because the spacing functions are parameters.
- B1520ASweep.CvSweepVoltages: a start or end of 0 in a log mode is kept as 0. The source's `sign(0) * 0.005` evaluates to 0, so its adjustment changes nothing.
- B1520ASweep.CvSweepVoltages: the ValueError numpy raises for a negative count carries a placeholder message.
- B1520ADriver.B1520A.SetupStaircaseCv: models only the calls that touch the modelled state.
  - Left out: `enable_channels`, the ADC, frequency, AC voltage, delay, sweep, impedance-model and volt-monitor settings, and `clear_buffer_of_error_message`.
  - The source writes that last call as `self.self.root_instrument` (line 669), an AttributeError the model does not reproduce.
- B1520ADriver.B1520A.RunSweep: does not model the measurement timeout (`delay_time * num_steps * fudge`). It does not log the learn queries that read the sweep settings, which are parameters here. It does not reproduce the `self._instrument.cvsweep` attribute error at line 717.
- `constants.py` is not part of this model. The enum values of `Abort`, `WMDCV.Post`, `RangingMode` and `MM.Mode` are not known here, which has three consequences:
  - Abort codes are integers with Python's truthiness.
  - `Auto` stands for any value equal to `RangingMode.AUTO`.
  - Only the two measurement modes the driver selects itself are named.
- The qcodes parameter framework is not modelled: validators, `Group`/`GroupParameter` get and set, `MultiParameter` shapes and setpoint metadata.
- The `Correction` and `FrequencyList` submodules and phase compensation are not modelled. They only wrap single commands.
- The upgrade's SQL, `atomic` and `atomic_transaction` are not modelled. The `runs` table is a map from run id to description. The transaction is a snapshot that `Rollback` restores.
- `json.loads` and `json.dumps` are not modelled. A stored description is the JSON value it decodes to, or text that does not decode. Encoding and decoding are assumed to round-trip. That is not so for an object with duplicate keys: `json.loads` keeps one entry per key, with the last value at the first key's position. A nested `interdependencies` object with duplicate keys is therefore collapsed by the source's `loads`/`dumps`, while `Rewrite` copies it whole.
- `InterDependencies().serialize()` is the parameter `emptyIdps`.
- The `tqdm` progress bar is not modelled.
- Upgrade5To6.RunStore.GetRunDescription: `queries.py` is not part of this model. A run id in `1..max` without a row is modelled as a failure (`MissingRun`).
- The run id in the upgrade error is added by the model to state which run failed; the exception raised by the source does not carry it.
