/** The BrainFlow GUI demo (`EEGDataVisualizer`): the sliding sample window
    fed by the plot timer, its resize on a new period, pause and resume,
    the choice of filter from the four filter checkboxes, and the channel
    checkboxes laid out when a board connects.

    The board, the clock and the widgets are inputs: each timer tick brings
    the chunk `get_board_data` returned, a resize brings the board's
    sampling rate, and `apply_filter` brings the set of ticked filters and
    the numbers parsed from the two cutoff fields. */
module EegVisualizer {
  import opened PyText
  import opened PeriodLabel
  import opened EegWindow

  // ---------------------------------------------------------------------
  // Period selection

  /** The items of the period selector, in order. */
  const PERIOD_ITEMS: seq<string> := ["1s", "5s", "10s"]

  /** `handle_period_selection`'s mapping: the selected text's period in
      seconds, or the current period for any other text. */
  function PeriodForSelection(text: string, current: nat): (p: nat)
  {
    if text == "1s" then 1
    else if text == "5s" then 5
    else if text == "10s" then 10
    else current
  }

  /** Every item of the selector sets the period its label names, and any
      other text keeps the current period. */
  lemma PeriodSelectionFollowsLabel(text: string, current: nat)
    ensures text in PERIOD_ITEMS ==> PeriodForSelection(text, current) * 1000 == LabelMillis(text)
    ensures text !in PERIOD_ITEMS ==> PeriodForSelection(text, current) == current
  {
    KnownLabels();
  }

  // ---------------------------------------------------------------------
  // Filter selection

  datatype FilterKind = LowPass | HighPass | BandPass | BandStop

  /** The order of the filter dictionary, which `apply_filter` walks. */
  const FILTER_ORDER: seq<FilterKind> := [LowPass, HighPass, BandPass, BandStop]

  const BANDPASS_DEFAULT_LOW_CUTOFF: real := 0.5
  const BANDPASS_DEFAULT_HIGH_CUTOFF: real := 45.0
  const BANDSTOP_DEFAULT_LOW_CUTOFF: real := 50.0
  const BANDSTOP_DEFAULT_HIGH_CUTOFF: real := 60.0

  /** `current_filter` and its three cutoff fields. */
  datatype FilterSettings = FilterSettings(current: Option<FilterKind>, cutoff: real, lowCutoff: real, highCutoff: real)

  /** What an unticked filter leaves: no filter, all cutoffs 0.0. */
  const CLEARED: FilterSettings := FilterSettings(None, 0.0, 0.0, 0.0)

  /** The settings after `apply_filter`, and whether it raised. */
  datatype FilterOutcome = FilterOutcome(settings: FilterSettings, raised: bool)

  /** The branch of a ticked filter. Low- and high-pass read their cutoff
      field (None: `float` raised ValueError); the band filters find no
      `cutoff_edit` entry and take their defaults. Applying the filter
      raises when there is no window yet, or when BrainFlow's filter call
      raises (`filterRaises`); in every such case nothing is set. */
  function ApplyTicked(kind: FilterKind, s: FilterSettings, lowPass: Option<real>, highPass: Option<real>,
                       hasBuffer: bool, filterRaises: bool): FilterOutcome
  {
    var callFails := !hasBuffer || filterRaises;
    match kind
    case LowPass =>
      if lowPass.None? || callFails then FilterOutcome(s, true)
      else FilterOutcome(s.(current := Some(LowPass), cutoff := lowPass.value), false)
    case HighPass =>
      if highPass.None? || callFails then FilterOutcome(s, true)
      else FilterOutcome(s.(current := Some(HighPass), cutoff := highPass.value), false)
    case BandPass =>
      if callFails then FilterOutcome(s, true)
      else FilterOutcome(s.(current := Some(BandPass), lowCutoff := BANDPASS_DEFAULT_LOW_CUTOFF,
        highCutoff := BANDPASS_DEFAULT_HIGH_CUTOFF), false)
    case BandStop =>
      if callFails then FilterOutcome(s, true)
      else FilterOutcome(s.(current := Some(BandStop), lowCutoff := BANDSTOP_DEFAULT_LOW_CUTOFF,
        highCutoff := BANDSTOP_DEFAULT_HIGH_CUTOFF), false)
  }

  /** The walk of `apply_filter` from the i-th filter on: an unticked filter
      clears the settings, the first ticked one is applied and ends the
      walk. */
  function RunFilters(s: FilterSettings, ticked: set<FilterKind>, lowPass: Option<real>, highPass: Option<real>,
                      hasBuffer: bool, filterRaises: bool, i: nat): FilterOutcome
    decreases |FILTER_ORDER| - i
  {
    if i >= |FILTER_ORDER| then FilterOutcome(s, false)
    else if FILTER_ORDER[i] in ticked then ApplyTicked(FILTER_ORDER[i], s, lowPass, highPass, hasBuffer, filterRaises)
    else RunFilters(CLEARED, ticked, lowPass, highPass, hasBuffer, filterRaises, i + 1)
  }

  /** Whether `apply_filter_to_data` raises out of BrainFlow: it calls the
      filter once per row of the window, so only a window with a row can
      reach a call that BrainFlow rejects (`rejects`). */
  predicate FilterCallRaises(buffer: Option<Matrix>, rejects: bool)
  {
    rejects && buffer.Some? && buffer.value.height > 0
  }

  /** The first ticked filter in the order low-pass, high-pass, band-pass,
      band-stop. */
  function FirstTicked(ticked: set<FilterKind>): Option<FilterKind>
  {
    if LowPass in ticked then Some(LowPass)
    else if HighPass in ticked then Some(HighPass)
    else if BandPass in ticked then Some(BandPass)
    else if BandStop in ticked then Some(BandStop)
    else None
  }

  /** The first ticked filter wins: with none ticked the settings are
      cleared; otherwise the first ticked filter becomes current with its
      cutoffs (the band filters always with their defaults), and the walk
      raises exactly for an unparsable low- or high-pass cutoff, a missing
      window or a filter call that BrainFlow rejects. Only a ticked low-pass filter keeps the band cutoffs from
      before; every later choice clears them first. */
  lemma FirstTickedFilterWins(s: FilterSettings, ticked: set<FilterKind>, lowPass: Option<real>, highPass: Option<real>,
                              hasBuffer: bool, filterRaises: bool)
    ensures var o := RunFilters(s, ticked, lowPass, highPass, hasBuffer, filterRaises, 0);
      && (FirstTicked(ticked).None? ==> o == FilterOutcome(CLEARED, false))
      && (o.raised <==>
           (FirstTicked(ticked).Some? &&
            (!hasBuffer || filterRaises || (FirstTicked(ticked) == Some(LowPass) && lowPass.None?)
                        || (FirstTicked(ticked) == Some(HighPass) && highPass.None?))))
      && (o.raised ==> o.settings == if FirstTicked(ticked) == Some(LowPass) then s else CLEARED)
      && (!o.raised ==> o.settings.current == FirstTicked(ticked))
      && (!o.raised && FirstTicked(ticked) == Some(LowPass) ==>
           o.settings == FilterSettings(Some(LowPass), lowPass.value, s.lowCutoff, s.highCutoff))
      && (!o.raised && FirstTicked(ticked) == Some(HighPass) ==>
           o.settings == FilterSettings(Some(HighPass), highPass.value, 0.0, 0.0))
      && (!o.raised && FirstTicked(ticked) == Some(BandPass) ==>
           o.settings == FilterSettings(Some(BandPass), 0.0, 0.5, 45.0))
      && (!o.raised && FirstTicked(ticked) == Some(BandStop) ==>
           o.settings == FilterSettings(Some(BandStop), 0.0, 50.0, 60.0))
  {
    assert FILTER_ORDER[0] == LowPass && FILTER_ORDER[1] == HighPass;
    assert FILTER_ORDER[2] == BandPass && FILTER_ORDER[3] == BandStop;
  }

  // ---------------------------------------------------------------------
  // Channel checkboxes

  datatype Placement = InList(position: nat) | InGrid(row: nat, column: nat)

  datatype Checkbox = Checkbox(text: string, checked: bool, place: Placement)

  /** Boards with at most this many EEG channels get a vertical list. */
  const MAX_VERTICAL_CHANNELS: nat := 6
  const MAX_COLUMNS: nat := 4

  function ChannelLabel(channel: nat): string
  {
    "Channel " + NatToString(channel)
  }

  /** `create_channel_checkboxes_vertical`: one ticked box per channel, one
      below the other. */
  function VerticalCheckboxes(channels: seq<nat>): (boxes: seq<Checkbox>)
    ensures |boxes| == |channels|
  {
    seq(|channels|, k requires 0 <= k < |channels| => Checkbox(ChannelLabel(channels[k]), true, InList(k)))
  }

  /** `create_channel_checkboxes_grid`: the k-th box in row k div 4 and
      column k mod 4, ticked only for the channel numbered 1. */
  function GridCheckboxes(channels: seq<nat>): (boxes: seq<Checkbox>)
    ensures |boxes| == |channels|
  {
    seq(|channels|, k requires 0 <= k < |channels| =>
      Checkbox(ChannelLabel(channels[k]), channels[k] == 1, InGrid(k / MAX_COLUMNS, k % MAX_COLUMNS)))
  }

  /** The layout choice of `connect_device`. */
  function ChannelCheckboxes(channels: seq<nat>): (boxes: seq<Checkbox>)
    ensures |boxes| == |channels|
  {
    if |channels| <= MAX_VERTICAL_CHANNELS then VerticalCheckboxes(channels) else GridCheckboxes(channels)
  }

  /** The cell after a given one when the grid is filled row by row. */
  function NextCell(p: Placement): Placement
    requires p.InGrid?
  {
    if p.column + 1 >= MAX_COLUMNS then InGrid(p.row + 1, 0) else InGrid(p.row, p.column + 1)
  }

  /** The grid starts at the top-left cell, fills each row of four columns
      from left to right before the next, and never puts two boxes in one
      cell. */
  lemma GridFillsRowByRow(channels: seq<nat>)
    ensures var boxes := GridCheckboxes(channels);
      && (|channels| > 0 ==> boxes[0].place == InGrid(0, 0))
      && (forall k :: 0 <= k < |channels| ==> boxes[k].place.InGrid? && boxes[k].place.column < MAX_COLUMNS)
      && (forall k :: 0 <= k < |channels| - 1 ==> boxes[k + 1].place == NextCell(boxes[k].place))
      && (forall k1, k2 :: 0 <= k1 < k2 < |channels| ==> boxes[k1].place != boxes[k2].place)
  {
    var boxes := GridCheckboxes(channels);
    forall k1, k2 | 0 <= k1 < k2 < |channels|
      ensures boxes[k1].place != boxes[k2].place
    {
      assert k1 == (k1 / 4) * 4 + k1 % 4 && k2 == (k2 / 4) * 4 + k2 % 4;
    }
  }

  /** Each channel gets one box, in channel order, labelled with the
      channel; the vertical list ticks all of them, the grid only channel 1. */
  lemma CheckboxesFollowChannels(channels: seq<nat>)
    ensures var boxes := ChannelCheckboxes(channels);
      && (forall k :: 0 <= k < |channels| ==> boxes[k].text == ChannelLabel(channels[k]))
      && (|channels| <= MAX_VERTICAL_CHANNELS ==>
           forall k :: 0 <= k < |channels| ==> boxes[k].checked && boxes[k].place == InList(k))
      && (|channels| > MAX_VERTICAL_CHANNELS ==>
           forall k :: 0 <= k < |channels| ==> (boxes[k].checked <==> channels[k] == 1) && boxes[k].place.InGrid?)
  {
  }

  // ---------------------------------------------------------------------
  // The widget state

  /** A window of the given row count with an index inside it; no window
      goes with index 0. */
  predicate WindowFits(buffer: Option<Matrix>, index: nat, height: nat)
  {
    match buffer
    case None => index == 0
    case Some(m) => m.height == height && index <= Width(m)
  }

  /** The window after one timer tick with the EEG rows of a chunk: the
      first chunk becomes the window, later ones slide it. */
  function Advance(buffer: Option<Matrix>, chunk: Matrix): (r: Matrix)
    requires buffer.Some? ==> buffer.value.height == chunk.height
    ensures r.height == chunk.height
    ensures buffer.None? ==> r == chunk
    ensures buffer.Some? ==> r == Slide(buffer.value, chunk)
  {
    match buffer
    case None => chunk
    case Some(b) => Slide(b, chunk)
  }

  /** What can happen while the collection is paused: a timer tick with a
      board chunk, or a selection in the period box. */
  datatype PausedEvent = TimerTick(board: Matrix) | PeriodSelected(text: string)

  /** The period after the events, starting from period p. */
  function PeriodAfter(events: seq<PausedEvent>, p: nat): nat
    decreases |events|
  {
    if events == [] then p
    else
      var next := match events[0]
        case TimerTick(_) => p
        case PeriodSelected(text) => PeriodForSelection(text, p);
      PeriodAfter(events[1..], next)
  }

  class EEGDataVisualizer {
    /** The board's EEG row numbers, fixed when the board connects. */
    var eegChannels: seq<nat>
    var dataBuffer: Option<Matrix>
    var bufferIndex: nat
    var paused: bool
    var stop: bool
    var pausedDataBuffer: Option<Matrix>
    var pausedBufferIndex: nat
    /** The window length in seconds. */
    var period: nat
    var channelCheckboxes: seq<Checkbox>
    var currentFilter: Option<FilterKind>
    var currentCutoffFreq: real
    var currentLowCutoffFreq: real
    var currentHighCutoffFreq: real

    ghost predicate Valid()
      reads this
    {
      && WindowFits(dataBuffer, bufferIndex, |eegChannels|)
      && WindowFits(pausedDataBuffer, pausedBufferIndex, |eegChannels|)
      && (period == 1 || period == 5 || period == 10)
      && |channelCheckboxes| == |eegChannels|
    }

    function Settings(): FilterSettings
      reads this
    {
      FilterSettings(currentFilter, currentCutoffFreq, currentLowCutoffFreq, currentHighCutoffFreq)
    }

    /** `__init__` followed by a `connect_device` that succeeded with a board
        whose EEG rows are `channels`. */
    constructor (channels: seq<nat>)
      ensures Valid()
      ensures eegChannels == channels
      ensures dataBuffer == None && bufferIndex == 0
      ensures !paused && !stop && pausedDataBuffer == None && pausedBufferIndex == 0
      ensures period == 1
      ensures channelCheckboxes == ChannelCheckboxes(channels)
      ensures Settings() == CLEARED
    {
      eegChannels := channels;
      dataBuffer := None;
      bufferIndex := 0;
      paused := false;
      stop := false;
      pausedDataBuffer := None;
      pausedBufferIndex := 0;
      period := 1;
      channelCheckboxes := [];
      currentFilter := None;
      currentCutoffFreq := 0.0;
      currentLowCutoffFreq := 0.0;
      currentHighCutoffFreq := 0.0;
      new;
      CreateChannelCheckboxes();
    }

    /** The layout choice of `connect_device`. */
    method CreateChannelCheckboxes()
      modifies this`channelCheckboxes
      ensures channelCheckboxes == old(channelCheckboxes) + ChannelCheckboxes(eegChannels)
    {
      if |eegChannels| <= MAX_VERTICAL_CHANNELS {
        CreateChannelCheckboxesVertical();
      } else {
        CreateChannelCheckboxesGrid();
      }
    }

    method CreateChannelCheckboxesVertical()
      modifies this`channelCheckboxes
      ensures channelCheckboxes == old(channelCheckboxes) + VerticalCheckboxes(eegChannels)
    {
      var k := 0;
      while k < |eegChannels|
        invariant 0 <= k <= |eegChannels|
        invariant channelCheckboxes == old(channelCheckboxes) + VerticalCheckboxes(eegChannels)[..k]
      {
        channelCheckboxes := channelCheckboxes + [Checkbox(ChannelLabel(eegChannels[k]), true, InList(k))];
        k := k + 1;
      }
      assert VerticalCheckboxes(eegChannels)[..k] == VerticalCheckboxes(eegChannels);
    }

    /** The grid loop keeps a row and a column counter; the column wraps to 0
        and the row advances after the fourth column. */
    method CreateChannelCheckboxesGrid()
      modifies this`channelCheckboxes
      ensures channelCheckboxes == old(channelCheckboxes) + GridCheckboxes(eegChannels)
    {
      var row, col := 0, 0;
      var k := 0;
      while k < |eegChannels|
        invariant 0 <= k <= |eegChannels|
        invariant row == k / MAX_COLUMNS && col == k % MAX_COLUMNS
        invariant channelCheckboxes == old(channelCheckboxes) + GridCheckboxes(eegChannels)[..k]
      {
        var channel := eegChannels[k];
        var checkbox := Checkbox(ChannelLabel(channel), channel == 1, InGrid(row, col));
        channelCheckboxes := channelCheckboxes + [checkbox];
        col := col + 1;
        if col >= MAX_COLUMNS {
          col := 0;
          row := row + 1;
        }
        k := k + 1;
      }
      assert GridCheckboxes(eegChannels)[..k] == GridCheckboxes(eegChannels);
    }

    /** `timerEvent`: nothing while paused or stopped; otherwise take the EEG
        rows of the chunk (an IndexError is logged and changes nothing),
        advance the window and point the index at its end. */
    method TimerEvent(board: Matrix) returns (logged: bool)
      requires Valid()
      modifies this`dataBuffer, this`bufferIndex
      ensures Valid()
      ensures old(paused || stop) ==> !logged && dataBuffer == old(dataBuffer) && bufferIndex == old(bufferIndex)
      ensures !old(paused || stop) ==> (logged <==> !RowsInRange(board, eegChannels))
      ensures logged ==> dataBuffer == old(dataBuffer) && bufferIndex == old(bufferIndex)
      ensures !old(paused || stop) && !logged ==>
        dataBuffer == Some(Advance(old(dataBuffer), SelectRows(board, eegChannels).value))
        && bufferIndex == Width(dataBuffer.value)
    {
      logged := false;
      if paused || stop {
        return;
      }
      var selected := SelectRows(board, eegChannels);
      if selected.None? {
        logged := true;
        return;
      }
      var chunk := selected.value;
      if dataBuffer.None? {
        dataBuffer := Some(chunk);
      } else {
        dataBuffer := Some(Slide(dataBuffer.value, chunk));
      }
      bufferIndex := Width(dataBuffer.value);
    }

    /** `update_buffer_size` with the board's sampling rate: a first window
        is all zeros; an existing one is resized as written, and when that
        raises ValueError nothing changes. */
    method UpdateBufferSize(samplingRate: nat) returns (raised: bool)
      requires Valid()
      modifies this`dataBuffer, this`bufferIndex
      ensures Valid()
      ensures var size := period * samplingRate;
        && (old(dataBuffer).None? ==>
             !raised && dataBuffer == Some(Zeros(|eegChannels|, size)) && bufferIndex == 0)
        && (old(dataBuffer).Some? ==> (raised <==> ResizeAsWritten(old(dataBuffer).value, size).None?))
        && (raised ==> dataBuffer == old(dataBuffer) && bufferIndex == old(bufferIndex))
        && (old(dataBuffer).Some? && !raised ==>
             dataBuffer == Some(KeepTail(old(dataBuffer).value, size)) && bufferIndex == Min(old(bufferIndex), size))
    {
      var size := period * samplingRate;
      raised := false;
      if dataBuffer.Some? {
        var resized := ResizeAsWritten(dataBuffer.value, size);
        ResizeAsWrittenCases(dataBuffer.value, size);
        if resized.None? {
          raised := true;
          return;
        }
        dataBuffer := resized;
      } else {
        dataBuffer := Some(Zeros(|eegChannels|, size));
      }
      bufferIndex := Min(bufferIndex, size);
    }

    /** `handle_period_selection`: set the period the text names, then
        resize the window for it. */
    method HandlePeriodSelection(text: string, samplingRate: nat) returns (raised: bool)
      requires Valid()
      modifies this`period, this`dataBuffer, this`bufferIndex
      ensures Valid()
      ensures period == PeriodForSelection(text, old(period))
      ensures var size := period * samplingRate;
        && (old(dataBuffer).None? ==>
             !raised && dataBuffer == Some(Zeros(|eegChannels|, size)) && bufferIndex == 0)
        && (old(dataBuffer).Some? ==> (raised <==> ResizeAsWritten(old(dataBuffer).value, size).None?))
        && (raised ==> dataBuffer == old(dataBuffer) && bufferIndex == old(bufferIndex))
        && (old(dataBuffer).Some? && !raised ==>
             dataBuffer == Some(KeepTail(old(dataBuffer).value, size)) && bufferIndex == Min(old(bufferIndex), size))
    {
      period := PeriodForSelection(text, period);
      raised := UpdateBufferSize(samplingRate);
    }

    /** `pause_real_time_collection`: the first pause snapshots the window
        and its index; pausing again changes nothing. */
    method Pause()
      requires Valid()
      modifies this`paused, this`pausedDataBuffer, this`pausedBufferIndex
      ensures Valid()
      ensures old(paused) ==> paused && pausedDataBuffer == old(pausedDataBuffer) && pausedBufferIndex == old(pausedBufferIndex)
      ensures !old(paused) ==> paused && pausedDataBuffer == dataBuffer && pausedBufferIndex == bufferIndex
    {
      if !paused {
        paused := true;
        pausedDataBuffer := dataBuffer;
        pausedBufferIndex := bufferIndex;
      }
    }

    /** `resume_real_time_collection`: put the snapshot back; resuming while
        not paused changes nothing. */
    method Resume()
      requires Valid()
      modifies this`paused, this`dataBuffer, this`bufferIndex
      ensures Valid()
      ensures !old(paused) ==> !paused && dataBuffer == old(dataBuffer) && bufferIndex == old(bufferIndex)
      ensures old(paused) ==> !paused && dataBuffer == pausedDataBuffer && bufferIndex == pausedBufferIndex
    {
      if paused {
        paused := false;
        dataBuffer := pausedDataBuffer;
        bufferIndex := pausedBufferIndex;
      }
    }

    /** Pausing and then resuming, with any timer ticks and period
        selections (each resizing the window) in between, gives back the
        window and index of the moment of the pause, while the period is
        the last one selected: after a selection the restored window is
        sized for the period at the pause, not for the period in force. */
    method PauseTicksResume(events: seq<PausedEvent>, samplingRate: nat)
      requires Valid() && !paused
      modifies this`paused, this`pausedDataBuffer, this`pausedBufferIndex, this`dataBuffer, this`bufferIndex, this`period
      ensures Valid() && !paused
      ensures dataBuffer == old(dataBuffer) && bufferIndex == old(bufferIndex)
      ensures period == PeriodAfter(events, old(period))
    {
      Pause();
      var i := 0;
      while i < |events|
        invariant 0 <= i <= |events|
        invariant Valid() && paused
        invariant pausedDataBuffer == old(dataBuffer) && pausedBufferIndex == old(bufferIndex)
        invariant PeriodAfter(events[i..], period) == PeriodAfter(events, old(period))
      {
        assert events[i..][1..] == events[i + 1..];
        match events[i] {
          case TimerTick(board) =>
            var logged := TimerEvent(board);
          case PeriodSelected(text) =>
            var raised := HandlePeriodSelection(text, samplingRate);
        }
        i := i + 1;
      }
      Resume();
    }

    /** `apply_filter`: walk the filters in dictionary order; an unticked
        filter clears the settings, the first ticked one is applied and
        stops the walk. A ValueError from the cutoff field, applying a
        filter with no window yet, or a filter call that BrainFlow rejects
        (`brainflowRejects`, for a window with a row) raises out of the walk. */
    method ApplyFilter(ticked: set<FilterKind>, lowPassCutoff: Option<real>, highPassCutoff: Option<real>,
                       brainflowRejects: bool) returns (raised: bool)
      requires Valid()
      modifies this`currentFilter, this`currentCutoffFreq, this`currentLowCutoffFreq, this`currentHighCutoffFreq
      ensures Valid()
      ensures FilterOutcome(Settings(), raised) ==
        RunFilters(old(Settings()), ticked, lowPassCutoff, highPassCutoff, dataBuffer.Some?,
                   FilterCallRaises(dataBuffer, brainflowRejects), 0)
    {
      var callFails := FilterCallRaises(dataBuffer, brainflowRejects);
      var i := 0;
      while i < |FILTER_ORDER|
        invariant 0 <= i <= |FILTER_ORDER|
        invariant RunFilters(Settings(), ticked, lowPassCutoff, highPassCutoff, dataBuffer.Some?, callFails, i) ==
          RunFilters(old(Settings()), ticked, lowPassCutoff, highPassCutoff, dataBuffer.Some?, callFails, 0)
      {
        var kind := FILTER_ORDER[i];
        if kind in ticked {
          match kind {
          case LowPass =>
            if lowPassCutoff.None? || dataBuffer.None? || callFails {
              return true;
            }
            currentFilter := Some(LowPass);
            currentCutoffFreq := lowPassCutoff.value;
          case HighPass =>
            if highPassCutoff.None? || dataBuffer.None? || callFails {
              return true;
            }
            currentFilter := Some(HighPass);
            currentCutoffFreq := highPassCutoff.value;
          case BandPass =>
            if dataBuffer.None? || callFails {
              return true;
            }
            currentFilter := Some(BandPass);
            currentLowCutoffFreq := BANDPASS_DEFAULT_LOW_CUTOFF;
            currentHighCutoffFreq := BANDPASS_DEFAULT_HIGH_CUTOFF;
          case BandStop =>
            if dataBuffer.None? || callFails {
              return true;
            }
            currentFilter := Some(BandStop);
            currentLowCutoffFreq := BANDSTOP_DEFAULT_LOW_CUTOFF;
            currentHighCutoffFreq := BANDSTOP_DEFAULT_HIGH_CUTOFF;
          }
          break;
        }
        currentFilter := None;
        currentCutoffFreq := 0.0;
        currentLowCutoffFreq := 0.0;
        currentHighCutoffFreq := 0.0;
        i := i + 1;
      }
      raised := false;
    }
  }
}
