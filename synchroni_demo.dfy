/** The Synchroni BLE GUI demo (`BluetoothDeviceScanner`): the discovered
    device list, the per-channel sample buffer that the plot shows, and the
    callback that forwards every tenth data packet.

    The numpy buffer `data_buffer` (EegChannelCount rows of
    `int(period * sampling_rate)` samples) is a sequence of rows here; before
    the first `update_buffer_size` it is `None` in the source and the empty
    sequence here, which no operation of this model can tell apart because
    the channel count is 0 until then. Samples are the integer `.data` of the
    SDK's sample objects. */
module SynchroniDemo {
  import opened PyText
  import opened Discovery
  import opened DeviceItem
  import opened PeriodLabel

  /** Every SAMPLE_INTERVAL-th sample of an EEG channel is forwarded. */
  const SAMPLE_INTERVAL: nat := 1
  /** Only every CALLBACK_DECIMATION-th data callback is forwarded. */
  const CALLBACK_DECIMATION: nat := 10

  /** PERIOD_OPTIONS, each period in milliseconds. */
  const PERIOD_OPTIONS: map<string, nat> :=
    map["500ms" := 500, "1s" := 1000, "5s" := 5000, "10s" := 10000, "30s" := 30000, "60s" := 60000]

  /** `int(period * sampling_rate)`, with the period in milliseconds: the
      number of whole samples that fit in the period. */
  function BufferSize(periodMs: nat, samplingRate: nat): (size: nat)
    ensures size * 1000 <= periodMs * samplingRate < (size + 1) * 1000
  {
    periodMs * samplingRate / 1000
  }

  function ZeroRows(count: nat, width: nat): (rows: seq<seq<int>>)
    ensures |rows| == count
    ensures forall i :: 0 <= i < count ==> rows[i] == seq(width, _ => 0)
  {
    seq(count, _ => seq(width, _ => 0))
  }

  // ---------------------------------------------------------------------
  // Period labels

  /** Every entry of PERIOD_OPTIONS is the period its label names. */
  lemma PeriodOptionsMatchLabels()
    ensures PERIOD_OPTIONS == map[
      "500ms" := LabelMillis("500ms"), "1s" := LabelMillis("1s"), "5s" := LabelMillis("5s"),
      "10s" := LabelMillis("10s"), "30s" := LabelMillis("30s"), "60s" := LabelMillis("60s")]
  {
    KnownLabels();
  }

  // ---------------------------------------------------------------------
  // One data packet and its decimation

  datatype DataType = NtfEeg | OtherType(code: int)

  datatype SensorData = SensorData(dataType: DataType, channelSamples: seq<seq<int>>)

  /** The samples of a channel at positions k, k + 1, ... whose index is a
      multiple of the interval (the list comprehension of `onDataCallback`). */
  function KeepEveryFrom(channel: seq<int>, interval: nat, k: nat): seq<int>
    requires interval > 0
    decreases |channel| - k
  {
    if k >= |channel| then []
    else (if k % interval == 0 then [channel[k]] else []) + KeepEveryFrom(channel, interval, k + 1)
  }

  function Decimate(channel: seq<int>, interval: nat): seq<int>
    requires interval > 0
  {
    KeepEveryFrom(channel, interval, 0)
  }

  /** The indices k, k + 1, ... below n that the comprehension keeps. */
  function KeptIndices(n: nat, interval: nat, k: nat): seq<nat>
    requires interval > 0
    decreases n - k
  {
    if k >= n then []
    else (if k % interval == 0 then [k] else []) + KeptIndices(n, interval, k + 1)
  }

  predicate Increasing(idx: seq<nat>)
  {
    forall j1, j2 :: 0 <= j1 < j2 < |idx| ==> idx[j1] < idx[j2]
  }

  /** The kept indices from k on are increasing, and they are exactly the
      multiples of the interval in k..n-1. */
  lemma {:induction false} KeptIndicesAreMultiples(n: nat, interval: nat, k: nat)
    requires interval > 0
    ensures Increasing(KeptIndices(n, interval, k))
    ensures forall p :: p in KeptIndices(n, interval, k) <==> k <= p < n && p % interval == 0
    decreases n - k
  {
    if k < n {
      var idx := KeptIndices(n, interval, k);
      var rest := KeptIndices(n, interval, k + 1);
      KeptIndicesAreMultiples(n, interval, k + 1);
      if k % interval == 0 {
        assert idx == [k] + rest;
        forall j | 0 <= j < |rest| ensures k < rest[j] {
          assert rest[j] in rest;
        }
      } else {
        assert idx == rest;
      }
    }
  }

  /** The comprehension from k on picks the channel's samples at the kept indices. */
  lemma {:induction false} KeepEveryFromPicks(channel: seq<int>, interval: nat, k: nat)
    requires interval > 0
    ensures var idx := KeptIndices(|channel|, interval, k);
      && |KeepEveryFrom(channel, interval, k)| == |idx|
      && forall j :: 0 <= j < |idx| ==> idx[j] < |channel| && KeepEveryFrom(channel, interval, k)[j] == channel[idx[j]]
    decreases |channel| - k
  {
    if k < |channel| {
      KeepEveryFromPicks(channel, interval, k + 1);
      KeptIndicesAreMultiples(|channel|, interval, k + 1);
    }
  }

  /** The decimated channel is the channel's samples at the indices that are
      multiples of the interval, in increasing index order, and no others. */
  lemma DecimateKeepsMultiples(channel: seq<int>, interval: nat)
    requires interval > 0
    ensures var idx := KeptIndices(|channel|, interval, 0);
      && |Decimate(channel, interval)| == |idx|
      && (forall j :: 0 <= j < |idx| ==> idx[j] < |channel| && Decimate(channel, interval)[j] == channel[idx[j]])
      && Increasing(idx)
      && (forall p :: p in idx <==> 0 <= p < |channel| && p % interval == 0)
  {
    KeepEveryFromPicks(channel, interval, 0);
    KeptIndicesAreMultiples(|channel|, interval, 0);
  }

  /** With SAMPLE_INTERVAL = 1 the decimation forwards every sample. */
  lemma {:induction false} DecimateByOneIsIdentity(channel: seq<int>)
    ensures Decimate(channel, SAMPLE_INTERVAL) == channel
  {
    KeepEveryFromAll(channel, 0);
    assert channel[0..] == channel;
  }

  lemma {:induction false} KeepEveryFromAll(channel: seq<int>, k: nat)
    requires k <= |channel|
    ensures KeepEveryFrom(channel, 1, k) == channel[k..]
    decreases |channel| - k
  {
    if k < |channel| {
      KeepEveryFromAll(channel, k + 1);
      assert channel[k..] == [channel[k]] + channel[k + 1..];
    }
  }

  /** The packet `onDataCallback` forwards: EEG packets with samples have every
      channel decimated; any other packet is forwarded untouched. */
  function Forwarded(data: SensorData): SensorData
  {
    if |data.channelSamples| > 0 && data.dataType == NtfEeg then
      data.(channelSamples := seq(|data.channelSamples|, i requires 0 <= i < |data.channelSamples| =>
        Decimate(data.channelSamples[i], SAMPLE_INTERVAL)))
    else data
  }

  /** The counter after one callback: it stays below ten and wraps to 0
      exactly on the callback that forwards the packet. */
  function Tick(counter: nat): (next: nat)
    ensures counter < CALLBACK_DECIMATION ==>
      next < CALLBACK_DECIMATION && (next == 0 <==> counter == CALLBACK_DECIMATION - 1)
  {
    if (counter + 1) % CALLBACK_DECIMATION == 0 then 0 else counter + 1
  }

  /** With SAMPLE_INTERVAL = 1 the forwarded packet is the packet itself:
      the decimation keeps every sample of every channel. */
  lemma ForwardedIsPacket(data: SensorData)
    ensures Forwarded(data) == data
  {
    if |data.channelSamples| > 0 && data.dataType == NtfEeg {
      forall i | 0 <= i < |data.channelSamples|
        ensures Decimate(data.channelSamples[i], SAMPLE_INTERVAL) == data.channelSamples[i]
      {
        DecimateByOneIsIdentity(data.channelSamples[i]);
      }
    }
  }

  /** The counter after n callbacks. */
  function CounterAfter(start: nat, n: nat): nat
  {
    if n == 0 then start else Tick(CounterAfter(start, n - 1))
  }

  /** From a fresh counter, n callbacks leave it at n mod 10: it stays in
      0..9, and the n-th callback forwards exactly when n is a multiple of 10. */
  lemma {:induction false} CounterCountsModTen(n: nat)
    ensures CounterAfter(0, n) == n % CALLBACK_DECIMATION
    ensures n > 0 ==> ((CounterAfter(0, n - 1) + 1) % CALLBACK_DECIMATION == 0 <==> n % CALLBACK_DECIMATION == 0)
  {
    if n > 0 {
      CounterCountsModTen(n - 1);
    }
  }

  // ---------------------------------------------------------------------
  // The per-channel buffer write of `add_data_to_buffer`

  /** `np.roll(row, -n)`: rotate the row left by n places, modulo its length. */
  function RollLeft(row: seq<int>, n: nat): (r: seq<int>)
    ensures |r| == |row|
  {
    if |row| == 0 then row else row[n % |row|..] + row[..n % |row|]
  }

  /** numpy's `row[-n:] = samples` with n = |samples|: the slice is the tail
      from Python's bound -n (the whole row when n is 0); the assignment
      succeeds when the lengths agree, or when one sample is broadcast over
      the slice, and raises otherwise. */
  function AssignTail(row: seq<int>, samples: seq<int>): (r: Option<seq<int>>)
    ensures r.Some? ==> |r.value| == |row|
  {
    var start := SliceBound(-|samples|, |row|);
    var target := |row| - start;
    if |samples| == target then Some(row[..start] + samples)
    else if |samples| == 1 then Some(row[..start] + seq(target, _ => samples[0]))
    else None
  }

  /** One channel of the batch, as written: the row is rolled and stored, then
      its tail is overwritten; the overlong branch also keeps the last
      `buffer_size` samples. When the tail write raises, the rolled row is
      what stays in the buffer. */
  datatype ChannelWrite = Written(row: seq<int>) | Raised(row: seq<int>)

  function WriteChannel(row: seq<int>, samples: seq<int>): (w: ChannelWrite)
    ensures |w.row| == |row|
  {
    var rolled := RollLeft(row, |samples|);
    match AssignTail(rolled, samples)
    case None => Raised(rolled)
    case Some(r) =>
      if |row| - |samples| >= 0 then Written(r) else Written(Slice(r, -|row|, |r|))
  }

  /** The rows after a batch, and whether the redraw signal was emitted. */
  datatype BatchOutcome = BatchOutcome(rows: seq<seq<int>>, redraw: bool)

  /** The channel loop from channel i on: channels past the buffer's row count
      are skipped; the first channel whose write raises ends the batch, and
      the exception handler swallows it, so no redraw is signalled. */
  function WriteChannelsFrom(rows: seq<seq<int>>, channels: seq<seq<int>>, i: nat): (o: BatchOutcome)
    ensures |o.rows| == |rows|
    ensures forall k :: 0 <= k < |rows| ==> |o.rows[k]| == |rows[k]|
    decreases |channels| - i
  {
    if i >= |channels| then BatchOutcome(rows, true)
    else if i >= |rows| then WriteChannelsFrom(rows, channels, i + 1)
    else
      match WriteChannel(rows[i], channels[i])
      case Raised(r) => BatchOutcome(rows[i := r], false)
      case Written(r) => WriteChannelsFrom(rows[i := r], channels, i + 1)
  }

  /** `add_data_to_buffer` as written: a packet without channels does nothing. */
  function AddBatch(rows: seq<seq<int>>, channels: seq<seq<int>>): (o: BatchOutcome)
    ensures |o.rows| == |rows|
    ensures forall k :: 0 <= k < |rows| ==> |o.rows[k]| == |rows[k]|
  {
    if |channels| == 0 then BatchOutcome(rows, false) else WriteChannelsFrom(rows, channels, 0)
  }

  /** The evident intent of the buffer write ("drop left data"): the row keeps
      its width and holds the newest samples of old row followed by the batch. */
  function SlideRow(row: seq<int>, samples: seq<int>): (r: seq<int>)
    ensures |r| == |row|
  {
    (row + samples)[|samples|..]
  }

  /** The rows after sliding channels i, i + 1, ... into the rows they have. */
  function SlideFrom(rows: seq<seq<int>>, channels: seq<seq<int>>, i: nat): (r: seq<seq<int>>)
    ensures |r| == |rows|
  {
    seq(|rows|, k requires 0 <= k < |rows| => if i <= k < |channels| then SlideRow(rows[k], channels[k]) else rows[k])
  }

  /** The evident intent of `add_data_to_buffer`: every channel that has a row
      slides by its samples, the others are skipped, and a redraw follows. */
  function IntendedBatch(rows: seq<seq<int>>, channels: seq<seq<int>>): (o: BatchOutcome)
    ensures |o.rows| == |rows|
  {
    BatchOutcome(SlideFrom(rows, channels, 0), |channels| > 0)
  }

  /** The intended batch: every channel that has a row ends with that
      channel's newest samples and keeps as many of the row's last samples
      as still fit; rows without a channel keep theirs; a packet with
      channels is redrawn. */
  lemma IntendedBatchKeepsNewest(rows: seq<seq<int>>, channels: seq<seq<int>>)
    ensures IntendedBatch(rows, channels).redraw <==> |channels| > 0
    ensures forall k :: 0 <= k < |rows| ==>
      && |IntendedBatch(rows, channels).rows[k]| == |rows[k]|
      && (k < |channels| && |channels[k]| <= |rows[k]| ==>
            IntendedBatch(rows, channels).rows[k] == rows[k][|channels[k]|..] + channels[k])
      && (k < |channels| && |channels[k]| > |rows[k]| ==>
            IntendedBatch(rows, channels).rows[k] == channels[k][|channels[k]| - |rows[k]|..])
      && (k >= |channels| ==> IntendedBatch(rows, channels).rows[k] == rows[k])
  {
    forall k | 0 <= k < |rows| && k < |channels| {
      SlideRowContents(rows[k], channels[k]);
    }
  }

  /** The slid row ends with the batch's newest samples and starts with the
      old row's samples that were not pushed out. */
  lemma SlideRowContents(row: seq<int>, samples: seq<int>)
    ensures |samples| <= |row| ==> SlideRow(row, samples) == row[|samples|..] + samples
    ensures |samples| > |row| ==> SlideRow(row, samples) == samples[|samples| - |row|..]
  {
    if |samples| <= |row| {
      assert (row + samples)[|samples|..] == row[|samples|..] + samples;
    } else {
      assert (row + samples)[|samples|..] == samples[|samples| - |row|..];
    }
  }

  /** Rolling left by 0 < n <= |row| brings the samples after the first n
      to the front. */
  lemma RollLeftInRange(row: seq<int>, n: nat)
    requires 0 < n <= |row|
    ensures RollLeft(row, n)[..|row| - n] == row[n..]
  {
    if n < |row| {
      assert n % |row| == n;
    } else {
      assert n % |row| == 0;
    }
  }

  /** A channel of n samples with 0 < n <= buffer length becomes old[n:] ++ new. */
  lemma WriteChannelInRange(row: seq<int>, samples: seq<int>)
    requires 0 < |samples| <= |row|
    ensures WriteChannel(row, samples) == Written(row[|samples|..] + samples)
    ensures WriteChannel(row, samples) == Written(SlideRow(row, samples))
  {
    var n := |samples|;
    RollLeftInRange(row, n);
    assert SliceBound(-n, |row|) == |row| - n;
    SlideRowContents(row, samples);
  }

  /** When every channel that has a row carries 0 < n <= width samples, the
      batch slides exactly those rows, leaves the others alone and redraws. */
  lemma {:induction false} WriteChannelsInRange(rows: seq<seq<int>>, channels: seq<seq<int>>, i: nat)
    requires i <= |channels|
    requires forall k :: i <= k < |channels| && k < |rows| ==> 0 < |channels[k]| <= |rows[k]|
    ensures WriteChannelsFrom(rows, channels, i) == BatchOutcome(SlideFrom(rows, channels, i), true)
    decreases |channels| - i
  {
    if i == |channels| {
      assert SlideFrom(rows, channels, i) == rows;
    } else if i >= |rows| {
      WriteChannelsInRange(rows, channels, i + 1);
      assert SlideFrom(rows, channels, i) == rows == SlideFrom(rows, channels, i + 1);
    } else {
      WriteChannelInRange(rows[i], channels[i]);
      var next := rows[i := SlideRow(rows[i], channels[i])];
      WriteChannelsInRange(next, channels, i + 1);
      assert SlideFrom(next, channels, i + 1) == SlideFrom(rows, channels, i);
    }
  }

  /** In range, the batch as written is the intended slide. */
  lemma AddBatchInRange(rows: seq<seq<int>>, channels: seq<seq<int>>)
    requires |channels| > 0
    requires forall k :: 0 <= k < |channels| && k < |rows| ==> 0 < |channels[k]| <= |rows[k]|
    ensures AddBatch(rows, channels) == IntendedBatch(rows, channels)
    ensures forall k :: 0 <= k < |rows| ==>
      AddBatch(rows, channels).rows[k] == if k < |channels| then rows[k][|channels[k]|..] + channels[k] else rows[k]
  {
    WriteChannelsInRange(rows, channels, 0);
    forall k | 0 <= k < |rows| && k < |channels| {
      SlideRowContents(rows[k], channels[k]);
    }
  }

  /** A channel write that raises at the tail assignment: an empty channel
      into a non-empty row (`row[-0:]` is the whole row), or a channel with
      more samples than its row holds and at least two samples (a single
      sample is broadcast instead). */
  predicate WriteRaises(row: seq<int>, samples: seq<int>)
  {
    (|samples| == 0 < |row|) || (|samples| > |row| && |samples| >= 2)
  }

  /** Such a write leaves the rolled row in the buffer; an empty channel
      rolls by nothing, so its row is unchanged. */
  lemma ChannelWriteRaises(row: seq<int>, samples: seq<int>)
    requires WriteRaises(row, samples)
    ensures WriteChannel(row, samples) == Raised(RollLeft(row, |samples|))
    ensures |samples| == 0 ==> RollLeft(row, |samples|) == row
  {
    assert |samples| == 0 ==> SliceBound(-|samples|, |row|) == 0;
    assert |samples| > |row| ==> SliceBound(-|samples|, |row|) == 0;
  }

  /** Every other write succeeds and slides its row: in range, or a row of
      width 0 that receives at most one sample and stays empty. */
  lemma NonRaisingWrite(row: seq<int>, samples: seq<int>)
    requires !WriteRaises(row, samples)
    ensures WriteChannel(row, samples) == Written(SlideRow(row, samples))
  {
    if 0 < |samples| <= |row| {
      WriteChannelInRange(row, samples);
    } else {
      assert |row| == 0;
      assert SliceBound(-|samples|, 0) == 0;
      assert RollLeft(row, |samples|) == [];
      assert AssignTail([], samples).Some?;
    }
  }

  /** A channel whose write does not raise slides its row, and the loop goes
      on with the next channel. */
  lemma NonRaisingWriteContinues(rows: seq<seq<int>>, channels: seq<seq<int>>, j: nat)
    requires j < |channels| && j < |rows|
    requires !WriteRaises(rows[j], channels[j])
    ensures WriteChannelsFrom(rows, channels, j) ==
      WriteChannelsFrom(rows[j := SlideRow(rows[j], channels[j])], channels, j + 1)
  {
    NonRaisingWrite(rows[j], channels[j]);
  }

  /** A raising channel i ends the loop with its row left rolled. */
  lemma RaisingChannelHere(rows: seq<seq<int>>, channels: seq<seq<int>>, i: nat)
    requires i < |channels| && i < |rows|
    requires WriteRaises(rows[i], channels[i])
    ensures WriteChannelsFrom(rows, channels, i) == BatchOutcome(rows[i := RollLeft(rows[i], |channels[i]|)], false)
  {
    ChannelWriteRaises(rows[i], channels[i]);
  }

  /** The rows after sliding only channels j .. i - 1 into their rows. */
  function SlideRange(rows: seq<seq<int>>, channels: seq<seq<int>>, j: nat, i: nat): (r: seq<seq<int>>)
    ensures |r| == |rows|
  {
    seq(|rows|, k requires 0 <= k < |rows| => if j <= k < i && k < |channels| then SlideRow(rows[k], channels[k]) else rows[k])
  }

  /** Sliding channels j .. i - 1 is sliding channel j's row, then the rest. */
  lemma SlideRangeStep(rows: seq<seq<int>>, channels: seq<seq<int>>, j: nat, i: nat)
    requires j < i && j < |channels| && j < |rows|
    ensures SlideRange(rows[j := SlideRow(rows[j], channels[j])], channels, j + 1, i) == SlideRange(rows, channels, j, i)
  {
  }

  /** The outcome of a batch whose channels j .. i - 1 slide and whose
      channel i raises: those rows slide, row i is left rolled, every later
      row keeps its samples and no redraw follows. */
  function AbortedAt(rows: seq<seq<int>>, channels: seq<seq<int>>, j: nat, i: nat): (o: BatchOutcome)
    requires i < |channels| && i < |rows|
    ensures !o.redraw && |o.rows| == |rows|
  {
    BatchOutcome(SlideRange(rows, channels, j, i)[i := RollLeft(rows[i], |channels[i]|)], false)
  }

  /** Writing channel j in range first leaves the same aborted outcome. */
  lemma AbortedAtStep(rows: seq<seq<int>>, channels: seq<seq<int>>, j: nat, i: nat)
    requires j < i < |channels| && i < |rows|
    ensures AbortedAt(rows[j := SlideRow(rows[j], channels[j])], channels, j + 1, i) == AbortedAt(rows, channels, j, i)
  {
    SlideRangeStep(rows, channels, j, i);
  }

  /** As written, from channel j on: when none of the channels j .. i - 1
      raises and channel i does, the loop ends in the aborted outcome. */
  lemma {:induction false} RaisingChannelStopsLoop(rows: seq<seq<int>>, channels: seq<seq<int>>, j: nat, i: nat)
    requires j <= i < |channels| && i < |rows|
    requires forall k :: j <= k < i ==> !WriteRaises(rows[k], channels[k])
    requires WriteRaises(rows[i], channels[i])
    ensures WriteChannelsFrom(rows, channels, j) == AbortedAt(rows, channels, j, i)
    decreases i - j, 1
  {
    if j == i {
      RaisingChannelHere(rows, channels, i);
      assert SlideRange(rows, channels, j, i) == rows;
    } else {
      NonRaisingChannelThenStop(rows, channels, j, i);
    }
  }

  /** The step of `RaisingChannelStopsLoop`: channel j < i is written
      without raising, and the loop from j + 1 on stops at channel i. */
  lemma {:induction false} NonRaisingChannelThenStop(rows: seq<seq<int>>, channels: seq<seq<int>>, j: nat, i: nat)
    requires j < i < |channels| && i < |rows|
    requires forall k :: j <= k < i ==> !WriteRaises(rows[k], channels[k])
    requires WriteRaises(rows[i], channels[i])
    ensures WriteChannelsFrom(rows, channels, j) == AbortedAt(rows, channels, j, i)
    decreases i - j, 0
  {
    var next := rows[j := SlideRow(rows[j], channels[j])];
    NonRaisingWriteContinues(rows, channels, j);
    RaisingChannelStopsLoop(next, channels, j + 1, i);
    AbortedAtStep(rows, channels, j, i);
  }

  /** As written, for every batch: the first channel that has a row and
      raises ends the batch. The rows before it slide as intended, its own
      row is left rolled, the later rows keep their old samples, and no
      redraw is signalled, where the intended batch slides every row and
      redraws. */
  lemma RaisingChannelAbortsBatch(rows: seq<seq<int>>, channels: seq<seq<int>>, i: nat)
    requires i < |channels| && i < |rows|
    requires forall k :: 0 <= k < i ==> !WriteRaises(rows[k], channels[k])
    requires WriteRaises(rows[i], channels[i])
    ensures !AddBatch(rows, channels).redraw && IntendedBatch(rows, channels).redraw
    ensures AddBatch(rows, channels).rows[i] == RollLeft(rows[i], |channels[i]|)
    ensures forall k :: 0 <= k < i ==> AddBatch(rows, channels).rows[k] == IntendedBatch(rows, channels).rows[k]
    ensures forall k :: i < k < |rows| ==> AddBatch(rows, channels).rows[k] == rows[k]
  {
    RaisingChannelStopsLoop(rows, channels, 0, i);
  }

  /** Finding, as written: a channel with more samples than its row (the row
      is not empty) raises at the tail write after the row was already
      rotated; later channels keep their old samples and no redraw is
      signalled. */
  lemma OverlongChannelAbortsBatch()
    ensures AddBatch([[1, 2], [3, 4]], [[7, 8, 9], [5]]) == BatchOutcome([[2, 1], [3, 4]], false)
    ensures IntendedBatch([[1, 2], [3, 4]], [[7, 8, 9], [5]]) == BatchOutcome([[8, 9], [4, 5]], true)
  {
    var rows: seq<seq<int>> := [[1, 2], [3, 4]];
    assert RollLeft([1, 2], 3) == [2, 1];
    assert AssignTail([2, 1], [7, 8, 9]).None?;
    assert WriteChannel([1, 2], [7, 8, 9]) == Raised([2, 1]);
    assert rows[0 := [2, 1]] == [[2, 1], [3, 4]];
    assert SlideRow([1, 2], [7, 8, 9]) == [8, 9];
    assert SlideRow([3, 4], [5]) == [4, 5];
  }

  /** Finding, as written: a channel without samples makes `row[-0:]` the
      whole row, so the write of the empty batch raises; later channels are
      not written and no redraw is signalled. */
  lemma EmptyChannelAbortsBatch()
    ensures AddBatch([[1, 2], [3, 4]], [[], [5]]) == BatchOutcome([[1, 2], [3, 4]], false)
    ensures IntendedBatch([[1, 2], [3, 4]], [[], [5]]) == BatchOutcome([[1, 2], [4, 5]], true)
  {
    var rows: seq<seq<int>> := [[1, 2], [3, 4]];
    assert RollLeft([1, 2], 0) == [1, 2];
    assert AssignTail([1, 2], []).None?;
    assert rows[0 := [1, 2]] == rows;
    assert SlideRow([3, 4], [5]) == [4, 5];
  }

  /** The loop of `deviceFoundCallback`: walk the batch, and for each device
      that passes the name filter and whose address is not listed yet, list
      it and emit its item text. */
  method ListNewDevices(known: seq<Device>, deviceList: seq<Device>) returns (listed: seq<Device>, emitted: seq<string>)
    ensures listed == MergeFound(known, deviceList)
    ensures listed == known + Appended(known, deviceList)
    ensures emitted == ItemTexts(Appended(known, deviceList))
  {
    listed := known;
    ghost var added: seq<Device> := [];
    emitted := [];
    var i := 0;
    while i < |deviceList|
      invariant 0 <= i <= |deviceList|
      invariant listed == known + added
      invariant listed == MergeFound(known, deviceList[..i])
      invariant emitted == ItemTexts(added)
    {
      var device := deviceList[i];
      assert deviceList[..i + 1] == deviceList[..i] + [device];
      MergeSnoc(known, deviceList[..i], device);
      if Supported(device) && device.address !in AddressSet(listed) {
        var itemText := ItemText(device);
        emitted := emitted + [itemText];
        ItemTextsAppend(added, [device]);
        assert ItemTexts([device]) == [itemText];
        added := added + [device];
        listed := listed + [device];
      }
      i := i + 1;
    }
    assert deviceList[..i] == deviceList;
    MergeAppendsExactly(known, deviceList);
    assert added == Appended(known, deviceList) by {
      assert (known + added)[|known|..] == added;
      assert (known + Appended(known, deviceList))[|known|..] == Appended(known, deviceList);
    }
  }

  // ---------------------------------------------------------------------
  // The demo's widget state

  class BluetoothDeviceScanner {
    var discoveredDevices: seq<Device>
    /** The rows of the device list widget, in the order they were added. */
    var deviceListItems: seq<string>
    var samplingRate: nat
    var periodMs: nat
    var dataBuffer: seq<seq<int>>
    var bufferIndex: nat
    var callbackCounter: nat
    var currentChannel: int
    var eegChannelCount: nat

    ghost predicate Valid()
      reads this
    {
      && callbackCounter < CALLBACK_DECIMATION
      && UniqueAddresses(discoveredDevices)
      && AllSupported(discoveredDevices)
      && deviceListItems == ItemTexts(discoveredDevices)
      && |dataBuffer| == eegChannelCount
      && forall i :: 0 <= i < |dataBuffer| ==> |dataBuffer[i]| == BufferSize(periodMs, samplingRate)
    }

    constructor ()
      ensures Valid()
      ensures discoveredDevices == [] && deviceListItems == []
      ensures samplingRate == 250 && periodMs == 1000
      ensures dataBuffer == [] && bufferIndex == 0
      ensures callbackCounter == 0 && currentChannel == 0 && eegChannelCount == 0
    {
      discoveredDevices := [];
      deviceListItems := [];
      samplingRate := 250;
      periodMs := 1000;
      dataBuffer := [];
      bufferIndex := 0;
      callbackCounter := 0;
      currentChannel := 0;
      eegChannelCount := 0;
    }

    /** `update_buffer_size`: all-zero rows of the current size, index 0. */
    method UpdateBufferSize()
      modifies this`dataBuffer, this`bufferIndex
      ensures dataBuffer == ZeroRows(eegChannelCount, BufferSize(periodMs, samplingRate))
      ensures bufferIndex == 0
    {
      dataBuffer := ZeroRows(eegChannelCount, BufferSize(periodMs, samplingRate));
      bufferIndex := 0;
    }

    /** What `connect_device` does with a freshly initialised sensor's device
        info: take its sampling rate and channel count, then resize. */
    method OnDeviceInfo(eegSampleRate: nat, channelCount: nat)
      requires Valid()
      modifies this`samplingRate, this`eegChannelCount, this`dataBuffer, this`bufferIndex
      ensures Valid()
      ensures samplingRate == eegSampleRate && eegChannelCount == channelCount
      ensures dataBuffer == ZeroRows(channelCount, BufferSize(periodMs, eegSampleRate))
      ensures bufferIndex == 0
    {
      samplingRate := eegSampleRate;
      eegChannelCount := channelCount;
      UpdateBufferSize();
    }

    /** `change_period`: an unknown label raises KeyError before anything
        changes; a known one sets the period and clears the buffer. */
    method ChangePeriod(periodText: string) returns (ok: bool)
      requires Valid()
      modifies this`periodMs, this`dataBuffer, this`bufferIndex
      ensures Valid()
      ensures ok <==> periodText in PERIOD_OPTIONS
      ensures !ok ==> periodMs == old(periodMs) && dataBuffer == old(dataBuffer) && bufferIndex == old(bufferIndex)
      ensures ok ==> (periodMs == PERIOD_OPTIONS[periodText]
        && dataBuffer == ZeroRows(eegChannelCount, BufferSize(periodMs, samplingRate)) && bufferIndex == 0)
    {
      if periodText !in PERIOD_OPTIONS {
        return false;
      }
      periodMs := PERIOD_OPTIONS[periodText];
      UpdateBufferSize();
      ok := true;
    }

    /** `change_channel`: select the channel and clear the buffer. */
    method ChangeChannel(index: int)
      requires Valid()
      modifies this`currentChannel, this`dataBuffer, this`bufferIndex
      ensures Valid()
      ensures currentChannel == index
      ensures dataBuffer == ZeroRows(eegChannelCount, BufferSize(periodMs, samplingRate)) && bufferIndex == 0
    {
      currentChannel := index;
      UpdateBufferSize();
    }

    /** `resizeEvent`: a resize of the window clears the buffer too. */
    method ResizeEvent()
      requires Valid()
      modifies this`dataBuffer, this`bufferIndex
      ensures Valid()
      ensures dataBuffer == ZeroRows(eegChannelCount, BufferSize(periodMs, samplingRate)) && bufferIndex == 0
    {
      UpdateBufferSize();
    }

    /** `deviceFoundCallback`: list each new device that passes the filter and
        emit its item text; the list keeps its order and its unique addresses. */
    method DeviceFoundCallback(deviceList: seq<Device>) returns (emitted: seq<string>)
      requires Valid()
      modifies this`discoveredDevices, this`deviceListItems
      ensures Valid()
      ensures discoveredDevices == MergeFound(old(discoveredDevices), deviceList)
      ensures discoveredDevices == old(discoveredDevices) + Appended(old(discoveredDevices), deviceList)
      ensures emitted == ItemTexts(Appended(old(discoveredDevices), deviceList))
      ensures deviceListItems == old(deviceListItems) + emitted
    {
      var known := discoveredDevices;
      var listed;
      listed, emitted := ListNewDevices(known, deviceList);
      MergeKeepsUnique(known, deviceList);
      MergeKeepsSupported(known, deviceList);
      ItemTextsAppend(known, Appended(known, deviceList));
      discoveredDevices := listed;
      deviceListItems := deviceListItems + emitted;
    }

    /** The lookup of `connect_device`: the first listed device whose address
        is the one sliced out of the clicked item's text. */
    method FindTarget(itemText: string) returns (target: Option<Device>)
      ensures target == FirstWithAddress(discoveredDevices, ParseAddress(itemText))
      ensures target.Some? ==> target.value in discoveredDevices && target.value.address == ParseAddress(itemText)
      ensures target.None? <==> ParseAddress(itemText) !in AddressSet(discoveredDevices)
    {
      var address := ParseAddress(itemText);
      var i := 0;
      while i < |discoveredDevices|
        invariant 0 <= i <= |discoveredDevices|
        invariant FirstWithAddress(discoveredDevices[i..], address) == FirstWithAddress(discoveredDevices, address)
      {
        assert discoveredDevices[i..] == [discoveredDevices[i]] + discoveredDevices[i + 1..];
        if discoveredDevices[i].address == address {
          FirstWithAddressFound(discoveredDevices, address);
          return Some(discoveredDevices[i]);
        }
        i := i + 1;
      }
      FirstWithAddressFound(discoveredDevices, address);
      return None;
    }

    /** `onDataCallback`: count the call; on every tenth, forward the
        (decimated) packet and restart the count. */
    method OnDataCallback(data: SensorData) returns (forwarded: Option<SensorData>)
      requires Valid()
      modifies this`callbackCounter
      ensures Valid()
      ensures callbackCounter == Tick(old(callbackCounter))
      ensures forwarded.Some? <==> old(callbackCounter) == CALLBACK_DECIMATION - 1
      ensures forwarded.Some? ==> forwarded.value == Forwarded(data)
    {
      callbackCounter := callbackCounter + 1;
      forwarded := None;
      if callbackCounter % CALLBACK_DECIMATION == 0 {
        var packet := data;
        if |data.channelSamples| > 0 && data.dataType == NtfEeg {
          var sampled: seq<seq<int>> := [];
          for c := 0 to |data.channelSamples|
            invariant |sampled| == c
            invariant forall k :: 0 <= k < c ==> sampled[k] == Decimate(data.channelSamples[k], SAMPLE_INTERVAL)
          {
            sampled := sampled + [Decimate(data.channelSamples[c], SAMPLE_INTERVAL)];
          }
          packet := data.(channelSamples := sampled);
        }
        forwarded := Some(packet);
        callbackCounter := 0;
      }
    }

    /** `add_data_to_buffer` as written, run sequentially: each channel that
        has a row is rolled left by its sample count and its tail overwritten;
        the first write that raises ends the batch without a redraw. */
    method AddDataToBuffer(data: SensorData) returns (redraw: bool)
      requires Valid()
      modifies this`dataBuffer
      ensures Valid()
      ensures BatchOutcome(dataBuffer, redraw) == AddBatch(old(dataBuffer), data.channelSamples)
    {
      redraw := false;
      if |data.channelSamples| == 0 {
        return;
      }
      var i := 0;
      while i < |data.channelSamples|
        invariant 0 <= i <= |data.channelSamples|
        invariant |dataBuffer| == eegChannelCount
        invariant forall k :: 0 <= k < |dataBuffer| ==> |dataBuffer[k]| == |old(dataBuffer)[k]|
        invariant WriteChannelsFrom(dataBuffer, data.channelSamples, i) == AddBatch(old(dataBuffer), data.channelSamples)
      {
        if i >= eegChannelCount {
          i := i + 1;
          continue;
        }
        var w := WriteChannel(dataBuffer[i], data.channelSamples[i]);
        dataBuffer := dataBuffer[i := w.row];
        if w.Raised? {
          return;
        }
        i := i + 1;
      }
      redraw := true;
    }
  }

  /** The first device in the list with the given address. */
  function FirstWithAddress(ds: seq<Device>, address: string): Option<Device>
  {
    if ds == [] then None
    else if ds[0].address == address then Some(ds[0])
    else FirstWithAddress(ds[1..], address)
  }

  lemma {:induction false} FirstWithAddressFound(ds: seq<Device>, address: string)
    ensures FirstWithAddress(ds, address).Some? <==> address in AddressSet(ds)
    ensures FirstWithAddress(ds, address).Some? ==>
      FirstWithAddress(ds, address).value in ds && FirstWithAddress(ds, address).value.address == address
  {
    if ds != [] {
      FirstWithAddressFound(ds[1..], address);
      assert ds == [ds[0]] + ds[1..];
      assert AddressSet(ds) == {ds[0].address} + AddressSet(ds[1..]);
    }
  }

  /** With unique addresses, the first device with a listed device's address
      is that device. */
  lemma {:induction false} FirstWithUniqueAddress(ds: seq<Device>, i: nat)
    requires i < |ds| && UniqueAddresses(ds)
    ensures FirstWithAddress(ds, ds[i].address) == Some(ds[i])
  {
    if i > 0 {
      assert ds[0].address != ds[i].address;
      FirstWithUniqueAddress(ds[1..], i - 1);
    }
  }

  /** Clicking the i-th row of the device list selects the i-th discovered
      device, for devices whose name and address the parse cannot confuse. */
  lemma ClickedItemSelectsItsDevice(ds: seq<Device>, i: nat)
    requires i < |ds| && UniqueAddresses(ds) && Parseable(ds[i])
    ensures FirstWithAddress(ds, ParseAddress(ItemTexts(ds)[i])) == Some(ds[i])
  {
    ParseItemText(ds[i]);
    FirstWithUniqueAddress(ds, i);
  }
}
