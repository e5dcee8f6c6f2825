# SnapmakerController-IDEX: input shaper, G-code buffer, switch detector and runout detector

This project models four sequential parts of the SnapmakerController-IDEX firmware and proves
properties of each.

- **The per-axis input shaper** (`AxisInputShaper.cpp`), in modules `ShaperMath`,
  `ShaperWindowModel`, `MoveQueueModel` and `InputShaping`.
  - For each shaper kind (ZV, ZVD, EI3) it builds the forward pulse train.
  - From that train it derives the shift filter: reversed, normalised to unit gain, offsets in
    milliseconds, centred on a zero centroid.
  - It places a sliding window of per-pulse quadratics over the move queue.
  - It advances the window from one move boundary to the next and hands one combined quadratic
    per advance to the segment sink.
  - All arithmetic is over exact `real`s. The forward and shift filters are `array`s, and the
    window is a class whose parameter array the methods rewrite in place.
  - Every method is proved against a specification function on sequences. The algebra is
    proved about those functions: sum to one, zero centroid, the change of time origin, the
    quadratic position law, no lag at constant speed.
- **The G-code ring buffer of the print controller** (`print_control.cpp`), module
  `PrintControl`.
  - The host pushes blocks at `buffer_tail` into a 2048-byte ring, after a free-space check and
    a newline-count check.
  - The print loop pulls one newline-terminated command at `buffer_head`, after skipping blanks.
  - The model is a class over the byte array. Its ghost view `Pending()` is the sequence of
    unread bytes.
- **The switch and probe detector** (`switch_detect.cpp`), module `SwitchDetect`.
  - `enable_bits` and `status_bits` are modelled as sets of bit positions.
  - `check()` is proved equal to a probe-by-probe decision function. A probe stops the machine
    only after two consecutive active reads.
- **The filament-runout detector** (`filament_sensor.h`, `filament_sensor.cpp`), module
  `FilamentSensor`.
  - Per-extruder step counters and ADC baselines.
  - The ADC sample averager.
  - An 8-bit error shift register matched against a mask of the last `check_times` outcomes.
  - The 32-bit and 8-bit wrap-arounds are written out.

Pin levels, sensor readings, the move queue and the guards of `get_commands` are inputs of the
model.

## Model

| member | source | states |
|---|---|---|
| ShaperMath.PulseCoefficientsLaw | Marlin/src/module/shaper/AxisInputShaper.cpp:5-15 | x after `left_time`, the pulse's quadratic equals A times the move's position at T − (start_t − left_time) + x |
| ShaperMath.RecentredLaw | Marlin/src/module/shaper/AxisInputShaper.cpp:45-50 | the re-centred quadratic at x equals the old quadratic at x + Δ, with `a` kept |
| ShaperMath.RecentredInverse | Marlin/src/module/shaper/AxisInputShaper.cpp:45-50 | re-centring by Δ and then by −Δ gives back the original coefficients |
| ShaperMath.Snap | Marlin/src/module/shaper/AxisInputShaper.cpp:24-32 | a combined coefficient is either the exact sum or 0, and it is 0 only when the sum's magnitude is below EPSILON |
| ShaperMath.ShiftAmplitudesSumToOne | Marlin/src/module/shaper/AxisInputShaper.cpp:59-66 | the shift amplitudes sum to 1 |
| ShaperMath.ShiftOffsetsCentred | Marlin/src/module/shaper/AxisInputShaper.cpp:63-73 | the amplitude-weighted shift offsets sum to 0 |
| ShaperMath.ShiftAmplitudePairing | Marlin/src/module/shaper/AxisInputShaper.cpp:62-64 | shift.A[n−1−i] == A[i] · (1/ΣA) |
| ShaperMath.ShiftOffsetPairing | Marlin/src/module/shaper/AxisInputShaper.cpp:65-73 | shift.T[n−1−i] == −T[i] − ts, with T already in milliseconds |
| ShaperWindowModel.RecentreParamKeepsPosition | Marlin/src/module/shaper/AxisInputShaper.cpp:37-52 | re-centring an entry keeps its contribution at every absolute instant; the entry then has the new `left_time`, the same `a`, and unchanged A, T, time and move |
| ShaperWindowModel.RecentreParamIdempotent | Marlin/src/module/shaper/AxisInputShaper.cpp:39-41 | a second re-centring on the same `left_time` changes nothing |
| ShaperWindowModel.SumCoeffsLaw | Marlin/src/module/shaper/AxisInputShaper.cpp:18-23 | the summed quadratic is the sum of the n pulses' contributions |
| ShaperWindowModel.CombinedIsContributionSum | Marlin/src/module/shaper/AxisInputShaper.cpp:17-35 | when no sum is below EPSILON, the combined quadratic is exactly the sum of the contributions |
| ShaperWindowModel.ShaperWindow.UpdateParamABC | Marlin/src/module/shaper/AxisInputShaper.cpp:5-15 | entry i gets the move's pulse quadratic and the new `left_time`; A, T, time, move and every other entry are unchanged |
| ShaperWindowModel.ShaperWindow.UpdateABC | Marlin/src/module/shaper/AxisInputShaper.cpp:17-35 | `func_params` is the snapped coefficient-wise sum over the first n entries; the entries are unchanged |
| ShaperWindowModel.ShaperWindow.UpdateParamLeftTime | Marlin/src/module/shaper/AxisInputShaper.cpp:37-52 | each of the first n entries is re-centred on `left_time` (an entry already there is untouched); entries from n on are unchanged |
| MoveQueueModel.PrevNext | Marlin/src/module/shaper/AxisInputShaper.cpp:195-198 | prevMoveIndex and nextMoveIndex undo each other, and a step back from any move but the tail brings the walk one move closer to the tail |
| MoveQueueModel.FuncManager.AddDeltaTimeFuncParams | Marlin/src/module/shaper/AxisInputShaper.cpp:263 | appends exactly one segment, moves `last_time` to its end, and keeps the chain of segments gapless |
| InputShaping.ForwardPulses | Marlin/src/module/shaper/AxisInputShaper.cpp:80-151 | none gives 0 pulses, ZV 2, ZVD 3 and EI3 5; pulse i sits at i · ½t_d |
| InputShaping.Ei3Amplitudes | Marlin/src/module/shaper/AxisInputShaper.cpp:118-146 | the EI3 amplitudes start at a1, with a4 == a2 · K² and a5 == a1 · K⁴ |
| InputShaping.ZvdIsZvTwice | Marlin/src/module/shaper/AxisInputShaper.cpp:88-116 | ZVD's amplitudes are the convolution of ZV's with themselves, and its offsets are sums of two ZV offsets |
| InputShaping.ZvAmplitudeSumPositive | Marlin/src/module/shaper/AxisInputShaper.cpp:88-116 | with K ≥ 0, the ZV and ZVD amplitude sums are positive, so shiftPulses can normalise them |
| InputShaping.ShapedConstant | Marlin/src/module/shaper/AxisInputShaper.cpp:171-175 | when the queue stands still at p, the shaped position is p times the amplitude sum |
| InputShaping.ShapedLinear | Marlin/src/module/shaper/AxisInputShaper.cpp:171-175 | at constant speed v, the shaped position is the position at `time` times the amplitude sum, plus v times the weighted offsets |
| InputShaping.ShiftFilterHoldsStill | Marlin/src/module/shaper/AxisInputShaper.cpp:54-78 | the shift filter leaves a standing axis where it is |
| InputShaping.ShiftFilterHasNoLag | Marlin/src/module/shaper/AxisInputShaper.cpp:54-78 | at constant speed, the shift filter's position at `time` is the unshaped position at `time` |
| InputShaping.WalkBack | Marlin/src/module/shaper/AxisInputShaper.cpp:195-198 | the walk ends at the tail or on a move that starts before the pulse's instant; every move it stepped back over starts at or after that instant; it never passes the tail |
| InputShaping.PlacedRunExtend | Marlin/src/module/shaper/AxisInputShaper.cpp:188-202 | placing pulse i where the backward walk from pulse i+1's move stops (no further from the tail, and every move stepped over starting at or after pulse i's instant) extends the placed run of pulses by one |
| InputShaping.PlacementUnique | Marlin/src/module/shaper/AxisInputShaper.cpp:195-198 | the walk's stopping move is unique: two moves within the walk's range on which a pulse at the same instant may sit (the tail, or a move starting before the instant, with every move after it up to the walk's start starting at or after the instant) are the same move |
| InputShaping.PlacedRunDetermined | Marlin/src/module/shaper/AxisInputShaper.cpp:188-202 | the placement has one outcome: two windows placed from the same shift pulses, window time, left_time and starting move are equal pulse for pulse |
| InputShaping.FirstMin | Marlin/src/module/shaper/AxisInputShaper.cpp:225-236 | the argmin scan gives a value no larger than the bound or any gap, and gives either the first index holding that minimum (strict `<`) or the old pivot when no gap is below the bound |
| InputShaping.PivotStepped | Marlin/src/module/shaper/AxisInputShaper.cpp:218-223 | the pivot's move index becomes nextMoveIndex of the old one, and every other pulse is unchanged |
| InputShaping.AdvanceMovesAndTimes | Marlin/src/module/shaper/AxisInputShaper.cpp:218-250 | in an advance, only the old pivot moves to the next move; the new pivot is a pulse of the window and lands on its move's `end_t`; every other pulse moves on by the step, which is no larger than any pulse's gap; A, T are kept and `left_time` is the new origin |
| InputShaping.AdvanceQuadratics | Marlin/src/module/shaper/AxisInputShaper.cpp:218-250 | in an advance, the old pivot gets its new move's quadratic, and every other pulse keeps its contribution at every absolute instant |
| InputShaping.AxisInputShaper.SelectPulses | Marlin/src/module/shaper/AxisInputShaper.cpp:80-151 | `params.n`, A and T are the kind's forward pulse train, and only a shaping kind clears `is_shaper_window_init` |
| InputShaping.AxisInputShaper.WritePulses | Marlin/src/module/shaper/AxisInputShaper.cpp:88-146 | the stores of one case of init()'s switch: params.n becomes the train's length and the first n amplitudes and offsets are the train's |
| InputShaping.AxisInputShaper.ShiftPulses | Marlin/src/module/shaper/AxisInputShaper.cpp:54-78 | T is scaled ×1000 in place; the shift amplitudes and offsets equal ShiftAmplitudes and ShiftOffsets of the forward filter; left_delta == abs(shift.T[0]), right_delta == abs(shift.T[n−1]), delta_window is their sum |
| InputShaping.AxisInputShaper.ScaleOffsets | Marlin/src/module/shaper/AxisInputShaper.cpp:55-57 | the first n offsets are scaled ×1000 |
| InputShaping.AxisInputShaper.AmplitudeSum | Marlin/src/module/shaper/AxisInputShaper.cpp:59-61 | `sum_a` is the sum of the first n amplitudes |
| InputShaping.AxisInputShaper.ReverseInto | Marlin/src/module/shaper/AxisInputShaper.cpp:63-66 | the shift amplitudes are the reversed forward amplitudes times `inv_a`, and the shift offsets are the reversed forward offsets, negated |
| InputShaping.AxisInputShaper.Centroid | Marlin/src/module/shaper/AxisInputShaper.cpp:69-71 | `ts` is the amplitude-weighted sum of the shift offsets |
| InputShaping.AxisInputShaper.Centre | Marlin/src/module/shaper/AxisInputShaper.cpp:72-73 | every shift offset is reduced by `ts` |
| InputShaping.AxisInputShaper.Init | Marlin/src/module/shaper/AxisInputShaper.cpp:80-160 | for ZV, ZVD and EI3: the forward train with offsets in milliseconds, the shift filter derived from it, the window deltas, and a request to place the window again |
| InputShaping.AxisInputShaper.CalcPosition | Marlin/src/module/shaper/AxisInputShaper.cpp:162-176 | 0 for an empty queue or a move index that is not live; otherwise the shift-weighted sum of the queue's positions at time + shift.T[i] (ShapedAt over the shift filter) |
| InputShaping.AxisInputShaper.PlacePulse | Marlin/src/module/shaper/AxisInputShaper.cpp:189-201 | pulse i carries its shift pulse and evaluates at window time + T; it sits on the tail or on a move starting before its instant, no further from the tail than the walk's start, and every move the walk stepped back over starts at or after its instant, so it is the move the walk stops at (PlacementUnique); it holds that move's quadratic; the other entries are unchanged |
| InputShaping.AxisInputShaper.PlaceWindow | Marlin/src/module/shaper/AxisInputShaper.cpp:188-202 | every pulse is placed where the backward walk from the next pulse's move (from `start` for the last pulse) stops, with its quadratic; the result is the first pulse's move; by PlacedRunDetermined this fixes the whole window |
| InputShaping.AxisInputShaper.MoveShaperWindowByIndex | Marlin/src/module/shaper/AxisInputShaper.cpp:179-209 | window.n == n, zero_n == n−1, window.time == moves[start].end_t − right_delta; every pulse is placed where the backward walk from the next pulse's move (from `start` for the last) stops, with its quadratic, which fixes the window (PlacedRunDetermined); func_params is the combined quadratic and pos the shaped position at the first pulse's move |
| InputShaping.AxisInputShaper.MoveShaperWindowToNext | Marlin/src/module/shaper/AxisInputShaper.cpp:212-258 | returns false, changing nothing, exactly when the last pulse's time equals moves[end].end_t; otherwise the window becomes AdvanceResult of the old one, window.time grows by the step, and func_params and pos are recomputed |
| InputShaping.AxisInputShaper.Advance | Marlin/src/module/shaper/AxisInputShaper.cpp:218-255 | the new pulses, pivot and window time are AdvanceResult of the old ones; func_params and pos are recomputed |
| InputShaping.AxisInputShaper.StepPivot | Marlin/src/module/shaper/AxisInputShaper.cpp:218-223 | the pulses become PivotStepped of the old ones |
| InputShaping.AxisInputShaper.PickPivot | Marlin/src/module/shaper/AxisInputShaper.cpp:225-236 | the step and the new zero_n are FirstMin of the gaps, from 1e9 and the old pivot |
| InputShaping.ScanGaps | Marlin/src/module/shaper/AxisInputShaper.cpp:227-236 | the scan over the first n pulses' gaps to the end of their moves, from 1e9 with strict <, returns FirstMin of the gaps: the smallest gap and the first pulse holding it, or the bound and the old pivot when no gap is below it |
| InputShaping.AxisInputShaper.AdvanceTimes | Marlin/src/module/shaper/AxisInputShaper.cpp:239-248 | the new pivot's time becomes its move's end_t, and every other pulse's time grows by the step |
| InputShaping.AxisInputShaper.Recentre | Marlin/src/module/shaper/AxisInputShaper.cpp:250 | the pulses become RecentredAll of the old ones |
| InputShaping.AxisInputShaper.Recombine | Marlin/src/module/shaper/AxisInputShaper.cpp:252-255 | func_params is the combined quadratic, window.time grows by the step, and pos is the shaped position at the first pulse's move |
| InputShaping.AxisInputShaper.GenerateFuncParams | Marlin/src/module/shaper/AxisInputShaper.cpp:260-280 | returns true. An unplaced window is placed from `start` with last_time as origin (zero_n, window time end_t − right_delta, every pulse where the backward walk stops) and its segment, from the old last_time to the window time with the combined quadratic and shaped position, is appended. Then `run`, from the window the advances start from to the final one, is a run of advances (each state the advance of the one before, re-centred on the time the previous segment ended), every state but the last had not reached moves[end].end_t, the final window is its last state, and the appended segments are exactly one per advance, each the combined quadratic, time and position of its state; unless the fuel ran out, the last pulse has reached moves[end].end_t; max_size becomes the larger of itself and the size |
| InputShaping.AxisInputShaper.PlaceAndEmit | Marlin/src/module/shaper/AxisInputShaper.cpp:261-266 | the window is placed as moveShaperWindowByIndex places it with last_time as origin: n, zero_n == n−1, window time end_t − right_delta, every pulse where the backward walk stops with its quadratic, func_params combined and pos the shaped position; exactly one segment is appended, that of the placed window from the old last_time, and last_time moves to the window time |
| InputShaping.AxisInputShaper.AdvanceAndEmit | Marlin/src/module/shaper/AxisInputShaper.cpp:268-271 | `run` starts at the window on entry and ends at the window on exit, each state the advance of the one before, re-centred on the old last_time for the first and on the previous window time after that; every state but the last had not reached moves[end].end_t; the segments appended are exactly SegmentsAlong the run, one per advance; unless the fuel ran out, the loop stopped because the last pulse reached moves[end].end_t |
| InputShaping.AxisInputShaper.AdvanceOnce | Marlin/src/module/shaper/AxisInputShaper.cpp:268-271 | one pass of the loop: it reports no advance exactly when the last pulse sits at moves[end].end_t, and then nothing changes; otherwise the window becomes the advance of the old one re-centred on the old last_time, exactly that window's segment from the old last_time is appended, and last_time becomes the window time |
| InputShaping.AxisInputShaper.EnsurePlaced | Marlin/src/module/shaper/AxisInputShaper.cpp:261-266 | a window already placed is left as it is and nothing is emitted; otherwise the window is placed from `start` with last_time as origin and exactly its segment is appended |
| InputShaping.ShapedAt | Marlin/src/module/shaper/AxisInputShaper.cpp:162-176 | calcPosition over given shift pulses: 0 for an empty queue or a move index that is not live |
| InputShaping.SegmentOf | Marlin/src/module/shaper/AxisInputShaper.cpp:262-270 | the segment addDeltaTimeFuncParams records for a window state runs from the given start to the window time |
| InputShaping.Iterate | Marlin/src/module/shaper/AxisInputShaper.cpp:268-271 | k advances from a state give k + 1 states, starting at it |
| InputShaping.RunIsIterate | Marlin/src/module/shaper/AxisInputShaper.cpp:212-271 | the advance is a function, so a run of advances is the iterate of the advance from its first state: the loop's states are fixed by where it starts and how many advances it made |
| InputShaping.RunNext | Marlin/src/module/shaper/AxisInputShaper.cpp:268-271 | a run extended by the advance of its last state, re-centred on that state's start time, is still a run |
| InputShaping.SegmentsAlong | Marlin/src/module/shaper/AxisInputShaper.cpp:268-271 | one segment per advance of the run |
| InputShaping.SegmentsAlongAt | Marlin/src/module/shaper/AxisInputShaper.cpp:262-270 | segment j is that of state j+1, from the time of state j (last_time before the first advance), so each segment starts where the one before ends |
| InputShaping.SegmentsAlongNext | Marlin/src/module/shaper/AxisInputShaper.cpp:268-271 | a further state appends its segment, from the time of the state before it, and keeps the earlier ones |
| InputShaping.RunStep | Marlin/src/module/shaper/AxisInputShaper.cpp:268-271 | one pass of the loop on values: extending a run whose last state has not reached the end by that state's advance keeps it a run that advanced at every state but its last, and its segment extends the emitted segments |
| PrintControl.GetBufUsed | snapmaker/module/print_control.cpp:35-37 | used < SIZE, and used is the ring distance from `buffer_tail` forward to `buffer_head` |
| PrintControl.GetBufFree | snapmaker/module/print_control.cpp:39-41 | used + free == SIZE and 1 ≤ free ≤ SIZE; free is SIZE when head == tail, and otherwise the number of unread bytes |
| PrintControl.FreeCheckAdmitsOverrun | snapmaker/module/print_control.cpp:36-40 | with 1500 unread bytes, the free check reports 1500 free although only 548 cells hold no unread data |
| PrintControl.BlankRunSpec | snapmaker/module/print_control.cpp:101-110 | the blank skip passes only spaces and newlines and stops at the first other byte |
| PrintControl.LineEndSpec | snapmaker/module/print_control.cpp:112-128 | the line scan passes no newline and stops on one, if there is one |
| PrintControl.NextCommandMeaning | snapmaker/module/print_control.cpp:101-129 | get_commands skips exactly the leading blanks; it succeeds only when a newline follows within max_len bytes and consumes the line with its newline; otherwise it consumes up to max_len bytes or up to the end of the unread data, none of them a newline |
| PrintControl.NextCommandAfterBlanks | snapmaker/module/print_control.cpp:101-129 | after the blanks are skipped, a second fetch has nothing to skip and takes the same bytes |
| PrintControl.PendingAfterPush | snapmaker/module/print_control.cpp:150-153 | when the unread bytes and the block fit in the ring, a push appends exactly the block to the unread bytes |
| PrintControl.PendingSuffix | snapmaker/module/print_control.cpp:101-128 | moving `buffer_head` past k unread bytes leaves the rest of them |
| PrintControl.PrintController.CountNewlines | snapmaker/module/print_control.cpp:133-145 | the 8-bit counter is the number of newlines in the block, modulo 256 |
| PrintControl.PrintController.PushGcode | snapmaker/module/print_control.cpp:132-157 | returns E_NO_MEM when free < size and E_PARAM when the 32-bit line span differs from the 8-bit newline count, writing nothing in both cases; on success the block is at (tail0+i) mod SIZE, nothing else in the ring changes, tail == (tail0+size) mod SIZE, next_req == end_line+1 and head is unchanged |
| PrintControl.PrintController.CopyIn | snapmaker/module/print_control.cpp:150-153 | each byte goes to the tail cell, the tail advances by size, and the other cells are unchanged |
| PrintControl.PrintController.GetCommands | snapmaker/module/print_control.cpp:83-130 | when a guard fails, returns false and changes nothing; otherwise the result, the new head, the remaining unread bytes, the line counter (one per skipped or terminating newline) and `cmd` (the line with its newline replaced by 0) follow NextCommand of the unread bytes |
| PrintControl.PrintController.FetchCommand | snapmaker/module/print_control.cpp:101-129 | the two loops of get_commands together: the NextCommand relation on the unread bytes |
| PrintControl.PrintController.SkipBlanks | snapmaker/module/print_control.cpp:101-110 | head moves past exactly the leading blanks, and the line counter grows by the newlines among them |
| PrintControl.PrintController.TakeCommand | snapmaker/module/print_control.cpp:111-129 | the fetch after the blanks: success, head, the counter and `cmd` as NextCommand says |
| PrintControl.PrintController.CopyLine | snapmaker/module/print_control.cpp:111-129 | copies the bytes before the first newline (at most max_len) into `cmd`, and stops on a newline, on a full `cmd` or on an empty buffer |
| PrintControl.PrintController.Pause | snapmaker/module/print_control.cpp:198 | head == tail == 0; the error record is unchanged, and so are the power-loss line counters, which the unmodelled power-loss call is assumed to leave alone |
| PrintControl.PrintController.Resume | snapmaker/module/print_control.cpp:215 | head == tail == 0; the error record is unchanged, and so are the power-loss line counters, which the unmodelled power-loss call is assumed to leave alone |
| PrintControl.PrintController.Stop | snapmaker/module/print_control.cpp:221-241 | returns E_SUCCESS; resets the buffer only when the system is not idle |
| PrintControl.PrintController.Start | snapmaker/module/print_control.cpp:159-195 | refused with the start error unless the system is idle, changing nothing; otherwise the line counters, next_req, the buffer indices and the error record are zeroed |
| PrintControl.PrintController.ErrorAndStop | snapmaker/module/print_control.cpp:264-267 | records next_req as the failing line and resets the buffer |
| SwitchDetect.SetBit | snapmaker/J1/switch_detect.cpp:111 | SBI sets that bit and no other |
| SwitchDetect.ClearBit | snapmaker/J1/switch_detect.cpp:112 | CBI clears that bit and no other |
| SwitchDetect.CheckSpec | snapmaker/J1/switch_detect.cpp:42-71 | a pending manual or stall-guard stop stops the machine and empties the status; otherwise a probe stops it only when it is enabled, reads active now, and its status bit was set; probe 1 is unsampled once probe 0 has stopped the machine; the new status holds at most bits 2 and 3 |
| SwitchDetect.TwoActiveReadsStop | snapmaker/J1/switch_detect.cpp:21-66 | a watched probe that reads active at two consecutive checks stops the machine at the second one |
| SwitchDetect.FreshEnableNeedsSecondRead | snapmaker/J1/switch_detect.cpp:110-113 | right after enable(), a probe's first active read alone cannot stop the machine |
| SwitchDetect.SwitchDetector.UpdateStatus | snapmaker/J1/switch_detect.cpp:21-28 | for a watched input, the bit records whether the pin reads at its active level; `trigged` rises when it also did at the previous check; other bits are unchanged |
| SwitchDetect.SwitchDetector.Check | snapmaker/J1/switch_detect.cpp:42-71 | the quick-stop flag and the new status_bits are those of CheckSpec |
| SwitchDetect.SwitchDetector.DisableAll | snapmaker/J1/switch_detect.cpp:75-78 | both registers become 0 |
| SwitchDetect.SwitchDetector.SetProbeDetectLevel | snapmaker/J1/switch_detect.cpp:80-82 | probe_detect_level becomes the level |
| SwitchDetect.SwitchDetector.Enable | snapmaker/J1/switch_detect.cpp:110-113 | sets the enable bit and clears the status bit; no other bit changes |
| SwitchDetect.SwitchDetector.Disable | snapmaker/J1/switch_detect.cpp:115-118 | clears both bits; no other bit changes |
| SwitchDetect.SwitchDetector.EnableProbe | snapmaker/J1/switch_detect.cpp:84-87 | enable of bits 2 and 3 |
| SwitchDetect.SwitchDetector.DisableProbe | snapmaker/J1/switch_detect.cpp:89-92 | disable of bits 2 and 3 |
| SwitchDetect.SwitchDetector.EnablePowerLost | snapmaker/J1/switch_detect.cpp:94-96 | enable of bit 4 |
| SwitchDetect.SwitchDetector.DisablePowerLost | snapmaker/J1/switch_detect.cpp:98-100 | disable of bit 4 |
| SwitchDetect.SwitchDetector.EnableStallGuard | snapmaker/J1/switch_detect.cpp:102-104 | enable of bit 5 |
| SwitchDetect.SwitchDetector.DisableStallGuard | snapmaker/J1/switch_detect.cpp:106-108 | disable of bit 5 |
| SwitchDetect.SwitchDetector.ManualTrigStop | snapmaker/J1/switch_detect.cpp:120-122 | sets exactly bit 6 of status_bits |
| SwitchDetect.SwitchDetector.StallGuardStop | snapmaker/J1/switch_detect.cpp:124-126 | sets exactly bit 7 of status_bits |
| FilamentSensor.WrapInt32 | snapmaker/module/filament_sensor.h:22 | the int32 wrap-around: the result is an int32, congruent to the input modulo 2³², and equal to it when it fits |
| FilamentSensor.WrapAdd | snapmaker/module/filament_sensor.h:22 | wrapping after each addition is wrapping once at the end |
| FilamentSensor.ReadyGivesMean | snapmaker/module/filament_sensor.h:22-28 | with 1 to 255 samples of 16 bits since the last ready(), ready() stores their exact mean, which lies between the smallest and the largest sample |
| FilamentSensor.SampleCountWraps | snapmaker/module/filament_sensor.h:22-26 | after 256 samples the 8-bit count is 0, so ready() keeps the old value |
| FilamentSensor.FilamentSample.Sample | snapmaker/module/filament_sensor.h:22 | raw += s in int32 and sample_num++ in 8 bits; the window gains the sample |
| FilamentSensor.FilamentSample.Ready | snapmaker/module/filament_sensor.h:23-28 | value becomes raw / sample_num (C division) when sample_num > 0 and is kept otherwise; raw and sample_num become 0 |
| FilamentSensor.FilamentSample.Get | snapmaker/module/filament_sensor.h:29 | the value fits in 16 bits |
| FilamentSensor.ErrMask | snapmaker/module/filament_sensor.cpp:25 | bit j of ~(0xff << k), narrowed to 8 bits, is set exactly when j < min(k, 8) |
| FilamentSensor.ShiftInHistory | snapmaker/module/filament_sensor.cpp:73 | shifting an outcome into err_times appends it to the outcome history |
| FilamentSensor.MatchesHistory | snapmaker/module/filament_sensor.cpp:74 | the register matches the mask exactly when the last min(check_times, 8) outcomes were all errors |
| FilamentSensor.CheckChannel | snapmaker/module/filament_sensor.cpp:60-80 | a disabled extruder is untouched; a zero baseline only takes a baseline; an evaluation happens only when abs(step count) ≥ check_step_count, and then shifts in the error outcome, sets `triggered` exactly when the register matches the mask, and starts a new baseline |
| FilamentSensor.EvaluationFlagsRunout | snapmaker/module/filament_sensor.cpp:69-79 | an evaluation appends its outcome to the history, and flags the extruder exactly when the last min(check_times, 8) evaluations all found an error |
| FilamentSensor.ZeroCheckTimesAlwaysTriggers | snapmaker/module/filament_sensor.cpp:74-75 | with check_times 0, every evaluation flags the extruder |
| FilamentSensor.MovedReadingClears | snapmaker/module/filament_sensor.cpp:72-78 | with check_times ≥ 1, a reading that moved by at least the threshold clears the flag |
| FilamentSensor.EnableEvaluatesAtNextCheck | snapmaker/module/filament_sensor.h:48-53 | after enable(e), given a non-zero baseline, the next check evaluates extruder e at once, whatever steps e_step counted in between |
| FilamentSensor.FilamentSensor.EStep | snapmaker/module/filament_sensor.cpp:38-52 | only extruder e's counter changes: +1 when step ≠ 0, −1 otherwise, in int32 |
| FilamentSensor.FilamentSensor.NextSample | snapmaker/module/filament_sensor.cpp:54-57 | e_step_count[e] becomes 0 and start_adc[e] the sampler's value; the other extruder is unchanged |
| FilamentSensor.FilamentSensor.Reset | snapmaker/module/filament_sensor.cpp:18-26 | new baselines, zero step counts, cleared flags and registers, check_step_count from the input, and err_mask == ErrMask(check_times) |
| FilamentSensor.FilamentSensor.Check | snapmaker/module/filament_sensor.cpp:59-82 | each extruder's state becomes CheckChannel of its old state |
| FilamentSensor.FilamentSensor.CheckOne | snapmaker/module/filament_sensor.cpp:61-80 | extruder i's state becomes CheckChannel of its old state, and the other extruder's is unchanged |
| FilamentSensor.FilamentSensor.Enable | snapmaker/module/filament_sensor.h:48-53 | enabled[e] set, triggered[e] cleared, check_step_count[e] and e_step_count[e] zeroed, and a new baseline; the other extruder is unchanged |
| FilamentSensor.FilamentSensor.Disable | snapmaker/module/filament_sensor.h:54-57 | clears triggered[e] and enabled[e] only |
| FilamentSensor.FilamentSensor.EnableAll | snapmaker/module/filament_sensor.h:58-62 | enable of both extruders |
| FilamentSensor.FilamentSensor.DisableAll | snapmaker/module/filament_sensor.h:63-67 | disable of both extruders |
| FilamentSensor.FilamentSensor.ReadyAll | snapmaker/module/filament_sensor.h:43-47 | ready() of both samplers |
| FilamentSensor.FilamentSensor.IsTrigger | snapmaker/module/filament_sensor.h:68-70 | is_trigger(e) == triggered[e] && is_enable(e) |
| FilamentSensor.FilamentSensor.IsTriggerAny | snapmaker/module/filament_sensor.h:71-73 | is_trigger() holds exactly when extruder 0 or extruder 1 is flagged and enabled |
| FilamentSensor.FilamentSensor.IsEnable | snapmaker/module/filament_sensor.h:74-76 | is_enable(e) is extruder e's enabled flag |
| FilamentSensor.DisabledNeverTriggers | snapmaker/module/filament_sensor.h:68-76 | a disabled extruder never reports a runout |
| FilamentSensor.AnyTriggerMeansSomeExtruder | snapmaker/module/filament_sensor.h:71-73 | is_trigger() holds exactly when some extruder reports |

## Left out

- Floating point: the shaper is modelled over exact reals, so float rounding and the cumulative error that moveShaperWindowToNext's snap to `end_t` absorbs are not modelled.
- The damping constants: `expf` and `SQRT` in `init` (AxisInputShaper.cpp:89-129) are not modelled. K, t_d, the EI3 tolerance v_tol and a1 are inputs.
- InputShaping.AxisInputShaper.Init: the `none` and default kinds are excluded by its precondition, and a zero amplitude sum too. With `n == 0`, `shiftPulses` divides by zero and reads `shift_params.T[-1]`, so the model does not invent behaviour there. SelectPulses covers those kinds (n = 0, `is_shaper_window_init` kept).
- InputShaping.AxisInputShaper.ShiftPulses: requires n ≥ 1 and a non-zero amplitude sum, for the same reason.
- MoveQueue.h and FuncManager are not part of this model.
  - `isBetween`, `getMoveSize` and `getAxisPositionAcrossMoves` are function-valued fields of the queue value.
  - `prevMoveIndex` and `nextMoveIndex` are ring arithmetic over the capacity.
  - A move is projected on the shaped axis.
  - The segment sink is an append-only sequence. `addDeltaTimeFuncParams` sets `last_time` to the segment's end.
- InputShaping.AxisInputShaper.GenerateFuncParams: the loop over advances takes a `fuel` bound, because its termination depends on the queue's timing. A call that uses up its fuel leaves the window placed, so the next call goes on from there; the exit condition is promised only for a call that stops before its fuel runs out.
- InputShaping.AxisInputShaper.MoveShaperWindowByIndex: each pulse's move is stated against the next pulse's move, and the last pulse's against `start`. The ordering of all pairs of pulses at once is not stated; it follows from chaining these facts.
- ShaperWindow's constructor, AxisInputShaper's constructor and the window's `func_params.update` are not in the modelled source. The constructors only set up the model's state.
- PrintControl.PrintController.GetCommands: the line counters `line_number_sum` and `cur_line` are unbounded naturals, not wrapped at 2^32. They live in the power-loss module, which is not part of this model, so their declared width is not in the modelled files; `get_commands` hands the sum out through a `uint32_t` reference (print_control.cpp:83, 124), so only the first 2^32 − 1 lines agree with the source.
- Logging (`LOG_I`, `SERIAL_ECHOLNPAIR`) is not modelled.
- The motion, thermal, settings, power-loss and mode side effects of `start`, `pause`, `resume`, `stop` and `error_and_stop` are not modelled. Only their buffer resets, `start`'s zeroing of the line counters and `error_and_stop`'s error record are. `start`'s call to `filament_sensor.reset()` is not modelled either.
- PrintControl.PrintController.Pause: assumes `power_loss.stash_print_env()` (print_control.cpp:200) leaves `cur_line`, `line_number_sum` and `next_req` untouched. Those counters live in the power-loss module, which is not part of this model.
- PrintControl.PrintController.Resume: assumes `power_loss.resume_print_env()` (print_control.cpp:216) leaves `cur_line`, `line_number_sum` and `next_req` untouched. Since `pause` discards the unread G-code, that call may well re-point `next_req` for the host's resend; the model does not capture this.
- PrintControl.PrintController.Stop: assumes `power_loss.clear()` (print_control.cpp:223) leaves `cur_line`, `line_number_sum` and `next_req` untouched.
- PrintControl.PrintController.ErrorAndStop: assumes `power_loss.stash_print_env()` and `power_loss.write_flash()` (print_control.cpp:269-270) leave `cur_line`, `line_number_sum` and `next_req` untouched.
- PrintControl.PrintController.Start: assumes `power_loss.clear()` (print_control.cpp:186), which runs after the counters are zeroed, leaves them at zero.
- `filament_check` is not modelled: the mode choice between `is_trigger(active_extruder)` and `is_trigger()`, and its `set_status` call. Its outcome is the `filamentTriggered` input of GetCommands, and the other three guards are inputs too.
- `buffer_is_empty` and `planner.has_blocks_queued` are not modelled.
- PrintControl.GetBufFree: as written, the free-space check counts the unread bytes as free. PrintControl.FreeCheckAdmitsOverrun shows a push it admits that overwrites unread data. PushGcode keeps that check unchanged. Its `Pending() == old(Pending()) + data` is promised only when the unread bytes and the block fit in the ring.
- Pin I/O (`SwitchDetect::init`, `read_e0/e1_probe_status`, `READ`) is not modelled: pin levels are inputs. `stepper.quick_stop()` is the result of Check.
- `FilamentSensor::test_adc`, `debug`, `init` and `used_default_param` are not modelled: they do motion, busy-waiting, serial output or settings.
- FilamentSensor.FilamentSensor.Reset: `distance * steps_per_mm` is a float product converted to int32. It is taken as an integer input per extruder.
- Interrupts are not modelled: `e*_step` runs in the stepper interrupt and `sample` in the temperature interrupt. Each call is one atomic step.
- The per-extruder C arrays are `seq` fields that the methods reassign, and FilamentSensor.FilamentSensor.Reset requires `check_times < 32`, because a shift by 32 or more is undefined in C.
- `bed_control.h` is not modelled: it holds declarations only.
