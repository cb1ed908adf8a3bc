# Sample buffers, device discovery and UI state of the brainflowtest demos

This project is a Dafny model of the repository's own logic. The rest of the repository is glue over two vendor SDKs and the GUI toolkits. The model covers three parts:

- **`SynchroniSDKPython_Demo.py`, the BLE GUI demo (`BluetoothDeviceScanner`).**
  - The per-channel sample buffer: `update_buffer_size`, `add_data_to_buffer` with its `np.roll` and tail write, and the buffer resets in `change_period`, `change_channel` and `resizeEvent`.
  - The discovered-device list that `deviceFoundCallback` fills.
  - The `Name: …, Address: …, RSSI: …` item text, and the address that `connect_device` slices back out of it.
  - The every-tenth-callback forwarding and the sample decimation of `onDataCallback`.
- **`demo_brain_test.py`, the BrainFlow GUI demo (`EEGDataVisualizer`).**
  - The channel-by-time window that `timerEvent` slides.
  - Its resize in `update_buffer_size`, and `handle_period_selection`.
  - Pause and resume.
  - The "first ticked filter wins" walk of `apply_filter`.
  - The channel checkboxes that a successful `connect_device` lays out, as a vertical list or as a grid four columns wide.
- **`synchroni_sdk_api/test_synchroni_sdk_api.py`, the BLE test module.**
  - `scan_devices_sync` and `scan_devices_async`: the nested device-found callback and the bounded retry loop.

Files and modules:

| file | module | contents |
|---|---|---|
| `py_text.dfy` | `PyText` | Python's slice bounds, `str.find`, `str(int)`, and an `Option` standing for `None` |
| `discovery.dfy` | `Discovery` | the name filter (`OB` or `Sync`), dedupe by address, and a reference definition of what one callback appends |
| `device_item.dfy` | `DeviceItem` | item text format and parse, with the round-trip proof |
| `period_label.dfy` | `PeriodLabel` | what a period label such as `500ms` or `10s` names |
| `synchroni_demo.dfy` | `SynchroniDemo` | the BLE GUI demo, as the class `BluetoothDeviceScanner` |
| `eeg_window.dfy` | `EegWindow` | the 2-D window: row selection, `hstack` slide, resize |
| `eeg_visualizer.dfy` | `EegVisualizer` | the BrainFlow GUI demo, as the class `EEGDataVisualizer` |
| `ble_scan.dfy` | `BleScan` | the scan helpers of the test module |

How the model represents the program:

- Widgets whose fields the source updates are classes. Their methods tie the new state to specification functions, and lemmas prove what the source promises about those functions.
- Inputs stand for what the SDKs, the clock and the widgets supply:
  - the sampling rate and channel count of the sensor;
  - the board chunk;
  - each batch of advertisements;
  - the set of ticked filters;
  - the numbers parsed from the cutoff fields.
- Periods of the BLE demo are in integer milliseconds, so `int(period * sampling_rate)` is `periodMs * rate / 1000`.
- The BrainFlow demo's periods are whole seconds.
- A Python exception is a `None` or `raised` result. The model keeps the exact state the exception leaves behind.

## Model

| member | source | states |
|---|---|---|
| `PyText.Find` | SynchroniSDKPython_Demo.py:164-165 | `str.find`: -1 exactly when the pattern does not occur, otherwise the first position where it occurs |
| `PyText.Slice` | SynchroniSDKPython_Demo.py:166 | `s[i:j]` with Python's bounds: never longer than `s`, and `s[i..j]` when the bounds are in order and in range |
| `PyText.NegativeStartSlicesTail` | SynchroniSDKPython_Demo.py:296 | `s[-k:]` is the last k elements when 0 < k <= len(s); because `-0` is `0`, `s[-0:]` is the whole sequence, as is `s[-k:]` for k beyond the length |
| `PyText.FindAt` | SynchroniSDKPython_Demo.py:164 | an occurrence with no occurrence before it is what `find` returns |
| `Discovery.MergeFound` | SynchroniSDKPython_Demo.py:242-247 | the list after one device-found callback has walked its batch; its meaning is proved by `MergeAppendsExactly`, `MergeKeepsUnique`, `MergeKeepsSupported` and `MergeAddresses` |
| `Discovery.MergeAppendsExactly` | SynchroniSDKPython_Demo.py:242-247 | a device-found callback keeps every listed device in place and appends exactly the batch's devices that pass the filter, are not listed, and do not repeat an earlier address of the batch, in batch order |
| `Discovery.MergeKeepsUnique` | SynchroniSDKPython_Demo.py:244 | addresses stay pairwise distinct after a callback, including when one batch repeats an address |
| `Discovery.MergeKeepsSupported` | SynchroniSDKPython_Demo.py:242 | only devices whose name starts with `OB` or `Sync` enter the list |
| `Discovery.MergeAddresses` | SynchroniSDKPython_Demo.py:243-247 | after a callback the listed addresses are the old ones plus the batch's addresses that pass the filter |
| `Discovery.MergeOfKnownIsIdentity` | SynchroniSDKPython_Demo.py:244 | a batch whose filtered addresses are all listed adds nothing |
| `Discovery.MergeIdempotent` | SynchroniSDKPython_Demo.py:243-247 | delivering the same batch twice lists the same devices as delivering it once |
| `Discovery.MergeSnoc` | SynchroniSDKPython_Demo.py:243-247 | a batch one device longer is one more turn of the callback's loop |
| `DeviceItem.ItemText` | SynchroniSDKPython_Demo.py:245 | the `Name: …, Address: …, RSSI: …` item text of a newly listed device; `ParseItemText` proves the address can be read back from it |
| `DeviceItem.ParseAddress` | SynchroniSDKPython_Demo.py:163-166 | the slice between the first `Address: ` and the first `, RSSI:`, with `find`'s -1 when either is missing; `ParseItemText` proves it inverts `ItemText` |
| `DeviceItem.FindAddressLabel` | SynchroniSDKPython_Demo.py:164 | in an item text whose name does not contain `Address: `, the first `Address: ` is the one right after the name |
| `DeviceItem.FindRssiMark` | SynchroniSDKPython_Demo.py:165 | in an item text whose name and address do not contain `, RSSI:`, the first `, RSSI:` is the one right after the address |
| `DeviceItem.ParseItemText` | SynchroniSDKPython_Demo.py:163-166 | the address sliced out of an emitted item text is exactly the device's address, provided the name holds neither marker and the address does not hold `, RSSI:` |
| `PeriodLabel.KnownLabels` | SynchroniSDKPython_Demo.py:22-29 | `500ms`, `1s`, `5s`, `10s`, `30s` and `60s` name 500, 1000, 5000, 10000, 30000 and 60000 ms |
| `SynchroniDemo.PeriodOptionsMatchLabels` | SynchroniSDKPython_Demo.py:22-29 | `PERIOD_OPTIONS` is exactly the map from each of its six labels to the period that label names |
| `SynchroniDemo.BufferSize` | SynchroniSDKPython_Demo.py:278 | `int(period * sampling_rate)` for a period in ms: the largest size whose 1000-fold does not exceed period times rate |
| `SynchroniDemo.Forwarded` | SynchroniSDKPython_Demo.py:254-258 | the packet `onDataCallback` forwards: EEG packets with channels decimated, anything else untouched; `ForwardedIsPacket` and `DecimateKeepsMultiples` prove what it keeps |
| `SynchroniDemo.Tick` | SynchroniSDKPython_Demo.py:252-260 | a counter below ten stays below ten, and it wraps to 0 exactly on the call that forwards the packet |
| `SynchroniDemo.ForwardedIsPacket` | SynchroniSDKPython_Demo.py:254-258 | with `SAMPLE_INTERVAL` 1 the forwarded packet is the received packet, every sample of every channel kept |
| `SynchroniDemo.DecimateKeepsMultiples` | SynchroniSDKPython_Demo.py:257 | a decimated channel is the channel's samples at exactly the indices divisible by the interval, in increasing index order |
| `SynchroniDemo.KeptIndicesAreMultiples` | SynchroniSDKPython_Demo.py:257 | the indices the comprehension keeps are increasing, and they are exactly the multiples of the interval below the channel length |
| `SynchroniDemo.KeepEveryFromPicks` | SynchroniSDKPython_Demo.py:257 | the comprehension picks the channel's samples at the kept indices |
| `SynchroniDemo.DecimateByOneIsIdentity` | SynchroniSDKPython_Demo.py:19 | with `SAMPLE_INTERVAL` 1 every sample is forwarded |
| `SynchroniDemo.KeepEveryFromAll` | SynchroniSDKPython_Demo.py:257 | with interval 1 the comprehension from position k keeps the channel's samples from k on |
| `SynchroniDemo.CounterCountsModTen` | SynchroniSDKPython_Demo.py:252-260 | from a fresh counter, n callbacks leave it at n mod 10, and the n-th callback forwards exactly when n is a multiple of 10 |
| `SynchroniDemo.RollLeft` | SynchroniSDKPython_Demo.py:295 | `np.roll(row, -n)` keeps the row's length |
| `SynchroniDemo.AssignTail` | SynchroniSDKPython_Demo.py:296 | numpy's tail assignment keeps the row's length when it succeeds |
| `SynchroniDemo.WriteChannel` | SynchroniSDKPython_Demo.py:289-301 | one channel's write, as written, keeps the row's length whether it succeeds or raises |
| `SynchroniDemo.WriteChannelsFrom` | SynchroniSDKPython_Demo.py:285-303 | the channel loop keeps the row count and every row's width |
| `SynchroniDemo.AddBatch` | SynchroniSDKPython_Demo.py:282-305 | `add_data_to_buffer` as written keeps the row count and every row's width |
| `SynchroniDemo.RollLeftInRange` | SynchroniSDKPython_Demo.py:295 | rolling left by 0 < n <= width brings the samples after the first n to the front |
| `SynchroniDemo.WriteChannelInRange` | SynchroniSDKPython_Demo.py:290-296 | a channel of 0 < n <= width samples turns its row into `old[n:] ++ new`, of the same length |
| `SynchroniDemo.WriteChannelsInRange` | SynchroniSDKPython_Demo.py:285-303 | when every channel that has a row carries 0 < n <= width samples, the loop slides exactly those rows, skips channels past the row count, leaves every other row alone and redraws |
| `SynchroniDemo.AddBatchInRange` | SynchroniSDKPython_Demo.py:284-303 | in that range, the batch as written equals the intended batch, and each row k is `old[n:] ++ new` for a channel k and untouched otherwise |
| `SynchroniDemo.SlideRow` | SynchroniSDKPython_Demo.py:297-301 | the intended write ("drop left data") keeps the row's width |
| `SynchroniDemo.SlideFrom` | SynchroniSDKPython_Demo.py:285-301 | sliding the channels from i on keeps the row count |
| `SynchroniDemo.IntendedBatch` | SynchroniSDKPython_Demo.py:282-303 | the intended batch keeps the row count |
| `SynchroniDemo.SlideRowContents` | SynchroniSDKPython_Demo.py:297-301 | the intended row is the old row's unpushed samples followed by the batch, or the batch's newest samples when the batch is longer than the row |
| `SynchroniDemo.IntendedBatchKeepsNewest` | SynchroniSDKPython_Demo.py:282-305 | intended batch: every channel with a row ends with its newest samples and keeps the old samples that still fit; rows without a channel are unchanged; a packet with channels is redrawn |
| `SynchroniDemo.ChannelWriteRaises` | SynchroniSDKPython_Demo.py:293-300 | a channel with no samples into a non-empty row, or with more samples than its row holds and at least two samples, raises at the tail write and leaves the rolled row behind; for an empty channel that is the row itself |
| `SynchroniDemo.NonRaisingWrite` | SynchroniSDKPython_Demo.py:293-300 | every other channel write succeeds and slides its row: in range, or an empty row that receives at most one sample (a single sample broadcasts over the empty slice) |
| `SynchroniDemo.NonRaisingWriteContinues` | SynchroniSDKPython_Demo.py:285-300 | a channel whose write does not raise slides its row, and the loop goes on with the next channel |
| `SynchroniDemo.SlideRange` | SynchroniSDKPython_Demo.py:285-296 | sliding only channels j .. i - 1 keeps the row count |
| `SynchroniDemo.RaisingChannelHere` | SynchroniSDKPython_Demo.py:293-305 | a raising channel ends the loop with its row left rolled and no redraw |
| `SynchroniDemo.AbortedAt` | SynchroniSDKPython_Demo.py:285-305 | the outcome of a batch aborted at channel i signals no redraw and keeps the row count |
| `SynchroniDemo.AbortedAtStep` | SynchroniSDKPython_Demo.py:285-296 | sliding channel j first and aborting from j + 1 is aborting from j |
| `SynchroniDemo.RaisingChannelStopsLoop` | SynchroniSDKPython_Demo.py:285-305 | from channel j on, when none of channels j .. i - 1 raises and channel i does, the loop slides exactly those rows, leaves row i rolled and every later row untouched, and signals no redraw |
| `SynchroniDemo.NonRaisingChannelThenStop` | SynchroniSDKPython_Demo.py:285-305 | the same outcome when channel j < i is written without raising first |
| `SynchroniDemo.RaisingChannelAbortsBatch` | SynchroniSDKPython_Demo.py:282-305 | for every batch: the first channel whose write raises (no samples into a non-empty row, or more samples than its row holds and at least two) ends the batch; earlier rows slide as intended, its row is left rolled, later rows keep their old samples, and no redraw is signalled, where the intended batch slides every row and redraws |
| `SynchroniDemo.OverlongChannelAbortsBatch` | SynchroniSDKPython_Demo.py:297-305 | on rows `[[1,2],[3,4]]` and channels `[[7,8,9],[5]]`, a witness of `RaisingChannelAbortsBatch`: the batch as written leaves `[[2,1],[3,4]]` and no redraw, where the intent gives `[[8,9],[4,5]]` and a redraw |
| `SynchroniDemo.EmptyChannelAbortsBatch` | SynchroniSDKPython_Demo.py:293-296 | on rows `[[1,2],[3,4]]` and channels `[[],[5]]`, a witness of `RaisingChannelAbortsBatch`: `row[-0:]` is the whole row, the write raises and the rows stay `[[1,2],[3,4]]` without a redraw, where the intent gives `[[1,2],[4,5]]` and a redraw |
| `SynchroniDemo.BluetoothDeviceScanner.constructor` | SynchroniSDKPython_Demo.py:50-65 | the initial state: no devices, 250 Hz, a 1 s period, counter and channel 0, no channels |
| `SynchroniDemo.BluetoothDeviceScanner.UpdateBufferSize` | SynchroniSDKPython_Demo.py:277-280 | the buffer becomes `EegChannelCount` all-zero rows of `int(period * sampling_rate)` samples, and the index becomes 0 |
| `SynchroniDemo.BluetoothDeviceScanner.OnDeviceInfo` | SynchroniSDKPython_Demo.py:192-195 | the sensor's sampling rate and channel count are taken, then the buffer is rebuilt for them |
| `SynchroniDemo.BluetoothDeviceScanner.ChangePeriod` | SynchroniSDKPython_Demo.py:345-349 | an unknown label raises KeyError before anything changes; a known one sets the period from `PERIOD_OPTIONS` and rebuilds an all-zero buffer |
| `SynchroniDemo.BluetoothDeviceScanner.ChangeChannel` | SynchroniSDKPython_Demo.py:361-364 | the channel is set, then an all-zero buffer is rebuilt |
| `SynchroniDemo.BluetoothDeviceScanner.ResizeEvent` | SynchroniSDKPython_Demo.py:376-381 | a window resize also rebuilds an all-zero buffer |
| `SynchroniDemo.ListNewDevices` | SynchroniSDKPython_Demo.py:242-247 | the callback's loop lists exactly the batch's new filtered devices after the old list, in batch order, and emits one item text per listed device |
| `SynchroniDemo.BluetoothDeviceScanner.DeviceFoundCallback` | SynchroniSDKPython_Demo.py:236-249 | the list becomes the old list plus exactly the new filtered devices, and it stays unique and filtered; one item text is emitted per appended device, and the widget's rows follow the list |
| `SynchroniDemo.BluetoothDeviceScanner.FindTarget` | SynchroniSDKPython_Demo.py:162-168 | the clicked item selects the first listed device whose address is the sliced one, and None exactly when no listed device has that address |
| `SynchroniDemo.BluetoothDeviceScanner.OnDataCallback` | SynchroniSDKPython_Demo.py:251-260 | the counter stays in 0..9; the packet is forwarded exactly on the tenth call, and then the counter resets; EEG packets are decimated and any other packet is forwarded untouched |
| `SynchroniDemo.BluetoothDeviceScanner.AddDataToBuffer` | SynchroniSDKPython_Demo.py:282-305 | the buffer and the redraw signal are those of the batch as written; row count and widths are kept |
| `SynchroniDemo.FirstWithAddressFound` | SynchroniSDKPython_Demo.py:168 | the `next(...)` lookup finds a device exactly when the address is listed, and the device it finds has that address |
| `SynchroniDemo.FirstWithUniqueAddress` | SynchroniSDKPython_Demo.py:168 | with unique addresses, the lookup of a listed device's address finds that device |
| `SynchroniDemo.ClickedItemSelectsItsDevice` | SynchroniSDKPython_Demo.py:162-168 | clicking the i-th row of the device list selects the i-th discovered device, for names and addresses the parse cannot confuse |
| `EegWindow.Zeros` | demo_brain_test.py:265 | `np.zeros((C, size))` has C rows and `size` columns |
| `EegWindow.SelectAllRows` | demo_brain_test.py:394 | selecting every row in order gives the chunk back |
| `EegWindow.Slide` | demo_brain_test.py:400 | the slid window has max(W, k) columns, is the last max(W, k) columns of old ++ new, and ends with the chunk |
| `EegWindow.SlidesShowNewest` | demo_brain_test.py:396-401 | a window fed chunks no wider than itself keeps its width and always shows the newest columns of everything it has received |
| `EegWindow.LastOfLast` | demo_brain_test.py:400 | taking the last n columns of a ++ b, appending c and taking the last n again is taking the last n of a ++ b ++ c, when a ++ b has at least n columns |
| `EegWindow.KeepTail` | demo_brain_test.py:264-267 | the intended resize has the new width, its last min(W, size) columns are the old last ones, and it is zero before them |
| `EegWindow.KeepTailSameWidth` | demo_brain_test.py:264-267 | resizing to the current width changes nothing |
| `EegWindow.KeepTailGrowShrink` | demo_brain_test.py:264-267 | growing a window and shrinking it back gives the window back |
| `EegWindow.KeepTailShrinkTwice` | demo_brain_test.py:264-267 | shrinking in two steps is shrinking in one |
| `EegWindow.ResizeAsWritten` | demo_brain_test.py:264-266 | the resize as written, when it succeeds, has the window's rows and the new width |
| `EegWindow.ResizeAsWrittenCases` | demo_brain_test.py:264-266 | as written, the resize raises exactly when min(W, size) = 0, W != size and W != 1; otherwise it is the intended resize |
| `EegWindow.EmptyWindowResizeRaises` | demo_brain_test.py:266 | as written, a window with no columns raises on any resize to a positive width, where the intent is an all-zero window |
| `EegVisualizer.PeriodForSelection` | demo_brain_test.py:250-255 | the `if`/`elif` chain of `handle_period_selection`; `PeriodSelectionFollowsLabel` proves each selector item sets the period its label names and any other text keeps the current one |
| `EegVisualizer.PeriodSelectionFollowsLabel` | demo_brain_test.py:250-255 | `1s`, `5s` and `10s` set the period their label names, and any other text keeps the current period |
| `EegVisualizer.FirstTickedFilterWins` | demo_brain_test.py:503-539 | with no filter ticked everything is cleared; otherwise the first ticked filter in the order low-pass, high-pass, band-pass, band-stop becomes current. Low- and high-pass take the parsed field value and the band filters their defaults 0.5/45.0 and 50.0/60.0. The walk raises exactly for an unparsable low- or high-pass field, a missing window, or a filter call that BrainFlow rejects, and then leaves the settings as the walk had them |
| `EegVisualizer.ApplyTicked` | demo_brain_test.py:506-534 | the branch of one ticked filter: it reads its cutoff field or takes its defaults, and raises before setting anything when the field is unparsable, there is no window or BrainFlow rejects the call; `FirstTickedFilterWins` proves the outcome |
| `EegVisualizer.RunFilters` | demo_brain_test.py:503-539 | the dictionary-order walk: an unticked filter clears the settings, and the first ticked one is applied and ends the walk; `FirstTickedFilterWins` proves the outcome |
| `EegVisualizer.FilterCallRaises` | demo_brain_test.py:553-563 | `apply_filter_to_data` calls BrainFlow once per row, so a rejected call raises only when the window exists and has a row |
| `EegVisualizer.VerticalCheckboxes` | demo_brain_test.py:317-323 | one box per channel |
| `EegVisualizer.GridCheckboxes` | demo_brain_test.py:325-343 | one box per channel |
| `EegVisualizer.ChannelCheckboxes` | demo_brain_test.py:304-307 | one box per channel, whichever layout is chosen |
| `EegVisualizer.GridFillsRowByRow` | demo_brain_test.py:325-343 | the grid starts at the top-left cell, stays within four columns, fills each row before the next, and never puts two boxes in one cell |
| `EegVisualizer.CheckboxesFollowChannels` | demo_brain_test.py:304-343 | each box is labelled with its channel; up to six channels get a vertical list, all ticked; more get the grid, with only channel 1 ticked |
| `EegVisualizer.EEGDataVisualizer.constructor` | demo_brain_test.py:22-49 | `__init__` followed by a successful `connect_device` (lines 294-309): the board's channels, no window, index 0, not paused, period 1 s, no filter, and the checkboxes of the layout choice |
| `EegVisualizer.EEGDataVisualizer.CreateChannelCheckboxes` | demo_brain_test.py:304-307 | appends the vertical boxes for up to six channels, the grid otherwise |
| `EegVisualizer.EEGDataVisualizer.CreateChannelCheckboxesVertical` | demo_brain_test.py:317-323 | appends the vertical boxes |
| `EegVisualizer.EEGDataVisualizer.CreateChannelCheckboxesGrid` | demo_brain_test.py:325-343 | the row and column counters place the k-th box in cell (k div 4, k mod 4) |
| `EegVisualizer.EEGDataVisualizer.TimerEvent` | demo_brain_test.py:383-409 | nothing changes while paused or stopped, or when the chunk lacks a channel's row (the error is logged); otherwise the window advances by the chunk's EEG rows and the index is its new width |
| `EegVisualizer.EEGDataVisualizer.UpdateBufferSize` | demo_brain_test.py:258-270 | a first window is all zeros of width `period * rate`. An existing one is resized as written: when that raises, nothing changes; otherwise the window is the intended resize and the index is clamped to the new width |
| `EegVisualizer.EEGDataVisualizer.HandlePeriodSelection` | demo_brain_test.py:245-256 | the period becomes the selected one, then the window is resized for it |
| `EegVisualizer.EEGDataVisualizer.Pause` | demo_brain_test.py:428-438 | the first pause snapshots the window and the index; a second pause does not overwrite the snapshot |
| `EegVisualizer.EEGDataVisualizer.Resume` | demo_brain_test.py:440-454 | resume restores the snapshot; resume while not paused changes nothing |
| `EegVisualizer.PeriodAfter` | demo_brain_test.py:245-255 | the period after a sequence of ticks and period selections: each selection goes through `PeriodForSelection`, and a tick leaves the period alone |
| `EegVisualizer.EEGDataVisualizer.PauseTicksResume` | demo_brain_test.py:245-454 | pause, then any sequence of timer ticks and period selections (each resizing the window for its period), then resume: the window and index are those of the moment of the pause, even when a selection changed the period, and the period is the one the selections left |
| `EegVisualizer.EEGDataVisualizer.ApplyFilter` | demo_brain_test.py:498-539 | the filter settings and the raised flag are those of the dictionary-order walk, with a BrainFlow rejection raising only when the window has a row |
| `BleScan.DeviceFoundCallback` | synchroni_sdk_api/test_synchroni_sdk_api.py:24-35 | the nested callback's list is the old list plus exactly the new filtered devices, unique and filtered whenever the old list was |
| `BleScan.MergeAll` | synchroni_sdk_api/test_synchroni_sdk_api.py:27-31 | the list after the nested callback has received each batch of a scan in turn; `MergeAllAddresses` and `MergeAllKeeps` prove what it holds |
| `BleScan.MergeAllAddresses` | synchroni_sdk_api/test_synchroni_sdk_api.py:27-31 | after several batches the listed addresses are the old ones plus every filtered address of the batches |
| `BleScan.MergeAllKeeps` | synchroni_sdk_api/test_synchroni_sdk_api.py:27-31 | several batches keep the list unique and filtered |
| `BleScan.AfterRounds` | synchroni_sdk_api/test_synchroni_sdk_api.py:37-46 | the list after the first n scans, each scan a round of batches; `AfterRoundsLists` proves what it holds |
| `BleScan.AfterRoundsLists` | synchroni_sdk_api/test_synchroni_sdk_api.py:37-46 | after n scans the list holds exactly the filtered addresses those scans reported, unique and filtered, and it is empty exactly when none was reported |
| `BleScan.ScanRound` | synchroni_sdk_api/test_synchroni_sdk_api.py:37-41 | one scan hands every batch of the round to the callback, in order |
| `BleScan.ScanDevicesSync` | synchroni_sdk_api/test_synchroni_sdk_api.py:20-46 | at most `max_retries` scans; the result is the list after the scans made; it stops after the first scan that leaves the list non-empty; an empty result means all `max_retries` scans found nothing; the result is unique and filtered |
| `BleScan.ScanDevicesAsync` | synchroni_sdk_api/test_synchroni_sdk_api.py:49-76 | the async variant has the same retry and dedupe contract |

## Left out

- Qt widgets, signals, timers and layouts are not modelled. Neither is matplotlib drawing: `update_plot`, `init_blitting`, the axis limits and the legend.
- The signal cascade of `channel_combobox.clear()` and `addItem` in the BLE demo's `connect_device` (SynchroniSDKPython_Demo.py:197-201) is not modelled; it calls `change_channel` again, which `ChangeChannel` models on its own.
- SDK calls are inputs:
  - `startScan`, `stopScan`, `requireSensor`, `connect`, `init` and `startDataNotification`;
  - `getDeviceInfo`, whose rate and channel count enter through `OnDeviceInfo`;
  - `get_board_data`, which enters as the `TimerEvent` chunk, and `get_sampling_rate`, a parameter;
  - BrainFlow's `prepare_session` and `start_stream`.
- The failure paths of both `connect_device` methods are not modelled. Of the BLE demo's connect, only the lookup and the device-info step are.
- `DataProcessingTask` and the thread pool are not modelled. `add_data_to_buffer` is one sequential call, so races between two batches are out of the model.
- `EegVisualizer.EEGDataVisualizer.constructor`: the BrainFlow demo's `__init__` is followed by one successful `connect_device`, so the channel list is fixed. A second connect after `stop_real_time_collection` would append a second set of checkboxes; that is not modelled.
- `demo_brain_test.py:309` assigns `self.pause`, not `self.paused`. The model follows the code: `paused` is untouched there.
- `stop_real_time_collection`, `start_real_time_collection`, `update_channel_visibility`, `check_filter` and `set_all_checkboxes_enable` are not part of this model. Neither is the timer handling in `resume_real_time_collection`.
- `EegVisualizer.EEGDataVisualizer.ApplyFilter`: the Butterworth filtering in `apply_filter_to_data` and `check_filter` is floating-point DSP in BrainFlow, so the model keeps the window's samples unchanged. Whether BrainFlow rejects a filter call is an input. The model does capture the raise when there is no window yet, and a rejected call's raise.
- `float(...)` parsing of the two cutoff fields is not modelled. Its outcome is an input, where `None` stands for ValueError.
- Both demos' samples are values that the model never combines: `int` for the BLE demo (`sample.data`) and `real` for the BrainFlow window. float64 rounding is not modelled.
- numpy aliasing is not modelled. `resume_real_time_collection` assigns the snapshot itself, not a copy, and the model's windows are values. Every resume reads a snapshot that the preceding pause has just taken, so no result of the model depends on this.
- `SynchroniDemo.BluetoothDeviceScanner.OnDataCallback` returns the forwarded packet as a new value. The source rewrites `data.channelSamples` on the SDK's object in place. A `None` packet is not modelled.
- The BLE demo's `data_buffer` is `None` before the first `update_buffer_size`. The model uses no rows instead. No modelled operation can tell the two apart, because the channel count is 0 until then.
- `BleScan.ScanDevicesSync`, `BleScan.ScanDevicesAsync`: callbacks are assumed to arrive within the waiting period of the scan they belong to. Neither function calls `stopScan`, so the callback stays registered after the loop ends and the returned list can still grow after the return; the model does not capture that.
- `BleScan.ScanDevicesAsync`: the awaits and the executor thread are not modelled. `try`/`except` in the callbacks has nothing to catch in the model.
- `BleScan.ScanDevicesSync`, `BleScan.ScanDevicesAsync`: the default `max_retries=MAX_SCAN_RETRIES` (3) is not modelled; the bound is always a parameter.
- `wait_for_state`, the pytest classes and the asyncio tests of the test module are not part of this model. Nor are the other test scripts and `synchroni_sdk_api/main.py`.

## Findings

| source | as written | input that shows it | evidently intended | confidence | as-written member | corrected member |
|---|---|---|---|---|---|---|
| SynchroniSDKPython_Demo.py:297-301 | for a channel longer than its row, the row is rotated, then the `[-n:]` write of n > W samples into W places raises; the handler swallows it, later channels are not written and no redraw is signalled | rows `[[1,2],[3,4]]`, channels `[[7,8,9],[5]]` give rows `[[2,1],[3,4]]` and no redraw | "drop left data": every row keeps its newest W samples of old ++ new (`[[8,9],[4,5]]`), then a redraw | not executed | `SynchroniDemo.RaisingChannelAbortsBatch`, witnessed by `SynchroniDemo.OverlongChannelAbortsBatch` | `SynchroniDemo.IntendedBatchKeepsNewest` |
| SynchroniSDKPython_Demo.py:293-296 | a channel with no samples makes `row[-0:]` the whole row; writing 0 samples into it raises, so later channels are not written and no redraw is signalled | rows `[[1,2],[3,4]]`, channels `[[],[5]]` give `[[1,2],[3,4]]` and no redraw | an empty channel leaves its row alone and the batch goes on (`[[1,2],[4,5]]`, redraw) | not executed | `SynchroniDemo.RaisingChannelAbortsBatch`, witnessed by `SynchroniDemo.EmptyChannelAbortsBatch` | `SynchroniDemo.IntendedBatchKeepsNewest` |
| demo_brain_test.py:264-266 | with min(W, size) = 0 both `[:, -0:]` slices are whole rows, so a (C, size) target receives a (C, 0) source and numpy raises ValueError | a window whose first board chunk had no columns (W = 0), resized to any positive width | an all-zero window of the new width | not executed | `EegWindow.EmptyWindowResizeRaises` | `EegWindow.KeepTail` |
