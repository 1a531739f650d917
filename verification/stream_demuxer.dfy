/** The reading state machine of StreamDemuxer (stream_demuxer.cpp): a
    reader cycles Initialize -> Service -> Down, replaying files when asked
    to repeat, and paces the frames it hands on to the stream's frame rate.
    The results of the ffmpeg calls and the clock readings are inputs; the
    observer callbacks, sleeps and seeks are recorded as events. */
module Demuxer {
  import opened CInt
  import opened Wrappers

  datatype State = Initialize | Service | Down

  /** AVERROR_EOF, FFERRTAG('E', 'O', 'F', ' ') in libavutil. */
  const AvErrorEof: int := -541478725

  /** What the demuxer does that the outside can observe, in order. */
  datatype Event =
    | Opened            // on_avformat_opened
    | Closed            // on_avformat_closed
    | FrameRead         // on_read_frame
    | ReadEof           // on_read_eof
    | Slept(us: int)    // av_usleep while pacing
    | Rewound(ret: int) // av_seek_frame back to the start, with its result
    | RetryPause        // the one-second sleep after a failed initialize

  /** The prefix test of do_initialize. */
  predicate IsRtspUrl(url: string) {
    |url| >= 7 && url[..7] == "rtsp://"
  }

  /** The options handed to avformat_open_input. */
  function OpenOptions(url: string): (opts: seq<(string, string)>)
    ensures |opts| == if IsRtspUrl(url) then 5 else 1
    ensures opts[|opts| - 1] == ("rw_timeout", "15000")
    ensures IsRtspUrl(url) ==>
      opts[..4] == [("rtsp_transport", "tcp"), ("stimeout", "2000000"), ("probesize", "400"), ("analyzeduration", "100")]
    ensures IsRtspUrl(url) <==> ("rtsp_transport", "tcp") in opts
  {
    (if IsRtspUrl(url) then
       [("rtsp_transport", "tcp"), ("stimeout", "2000000"), ("probesize", "400"), ("analyzeduration", "100")]
     else [])
    + [("rw_timeout", "15000")]
  }

  /** do_initialize's status: the first negative result of opening the input
      and probing its streams, else 0. */
  function OpenStatus(openRet: int, infoRet: int): (r: int)
    ensures r <= 0
    ensures r == 0 <==> openRet >= 0 && infoRet >= 0
    ensures openRet < 0 ==> r == openRet
    ensures openRet >= 0 && infoRet < 0 ==> r == infoRet
  {
    if openRet < 0 then openRet else if infoRet < 0 then infoRet else 0
  }

  /** The pacing interval in microseconds for the stream's average frame
      rate num/den; a rate with a zero part counts as 25/1. */
  function FrameInterval(num: int, den: int): (us: int)
    ensures num == 0 || den == 0 ==> us == 40000
  {
    if num == 0 || den == 0 then Div(1000000 * 1, 25) else Div(1000000 * den, num)
  }

  /** For a positive rate the interval is one second divided by the rate,
      rounded down: `interval` frames of den/num seconds fit in it. */
  lemma FrameIntervalBrackets(num: int, den: int)
    requires num > 0 && den > 0
    ensures FrameInterval(num, den) * num <= 1000000 * den < (FrameInterval(num, den) + 1) * num
  {
    DivBounds(1000000 * den, num);
  }

  /** The sleep before handing on a frame read at `now` when the previous
      frame left at `last` (0: there was none). */
  function PacingDelay(last: int, now: int, interval: int): (us: int)
    ensures us >= 0
    ensures us > 0 <==> last != 0 && now - last < interval
    ensures us > 0 ==> now + us == last + interval
  {
    if last != 0 && interval > now - last then interval - (now - last) else 0
  }

  /** One av_read_frame: its result, the result of the seek made if it is a
      replayed end of file, and the two clock readings taken for a frame
      (before pacing, and after it, which becomes m_last_frame_time). */
  datatype ReadOutcome = ReadOutcome(ret: int, seekRet: int, now: int, after: int)

  /** AVRational avg_frame_rate of the opened input's first stream. */
  datatype FrameRate = FrameRate(num: int, den: int)

  /** The fields do_service reads but never writes. */
  datatype ServiceConfig = ServiceConfig(repeat: bool, isFileUrl: bool, hasObserver: bool, interval: int)

  /** The fields do_service writes. */
  datatype Reader = Reader(state: State, lastFrameTime: int, events: seq<Event>)

  /** on_read_eof as the source calls it: through m_observer with
      no null test, unlike every other callback; None stands for the null
      dereference when no observer was given. */
  function EofEventsAsWritten(hasObserver: bool): (e: Option<seq<Event>>)
    ensures e.None? <==> !hasObserver
    ensures e.Some? ==> e.value == [ReadEof]
  {
    if hasObserver then Some([ReadEof]) else None
  }

  /** on_read_eof guarded like the other callbacks. */
  function EofEvents(hasObserver: bool): (e: seq<Event>)
    ensures hasObserver <==> e == [ReadEof]
    ensures !hasObserver ==> e == []
  {
    if hasObserver then [ReadEof] else []
  }

  /** The guarded call never fails and agrees with the source wherever the
      source does not dereference null. */
  lemma EofEventsAgree(hasObserver: bool)
    ensures EofEventsAsWritten(hasObserver).Some? ==> EofEventsAsWritten(hasObserver).value == EofEvents(hasObserver)
    ensures !hasObserver ==> EofEventsAsWritten(hasObserver) == None && EofEvents(hasObserver) == []
  {
  }

  /** One turn of do_service's read loop. */
  function ServiceStep(r: Reader, o: ReadOutcome, cfg: ServiceConfig): (r': Reader)
    ensures o.ret < 0 && o.ret != AvErrorEof ==> r' == r
    ensures o.ret == AvErrorEof && cfg.repeat && cfg.isFileUrl ==>
      r' == r.(events := r.events + [Rewound(o.seekRet)])
    ensures o.ret == AvErrorEof && !(cfg.repeat && cfg.isFileUrl) ==>
      r'.state == Down && r'.lastFrameTime == r.lastFrameTime && r'.events == r.events + EofEvents(cfg.hasObserver)
    ensures o.ret >= 0 ==> r'.state == r.state && r'.lastFrameTime == o.after
    ensures o.ret >= 0 ==>
      var d := PacingDelay(r.lastFrameTime, o.now, cfg.interval);
      r'.events == r.events + (if d > 0 then [Slept(d)] else []) + (if cfg.hasObserver then [FrameRead] else [])
    ensures r'.state != r.state ==> r'.state == Down
    ensures r.events <= r'.events
  {
    if o.ret < 0 then
      if o.ret != AvErrorEof then r
      else if cfg.repeat && cfg.isFileUrl then r.(events := r.events + [Rewound(o.seekRet)])
      else Reader(Down, r.lastFrameTime, r.events + EofEvents(cfg.hasObserver))
    else
      var d := PacingDelay(r.lastFrameTime, o.now, cfg.interval);
      Reader(r.state, o.after,
             r.events + (if d > 0 then [Slept(d)] else []) + (if cfg.hasObserver then [FrameRead] else []))
  }

  /** do_service's loop over a finite run of outcomes: it keeps reading while
      the state is Service; the second component counts the reads used. */
  function RunService(r: Reader, outcomes: seq<ReadOutcome>, cfg: ServiceConfig): (res: (Reader, nat))
    ensures res.1 <= |outcomes|
    ensures r.state == Service && outcomes != [] ==> res.1 >= 1
    ensures r.state != Service ==> res == (r, 0)
    ensures res.0.state == Service ==> res.1 == |outcomes|
    ensures r.state == Service ==> res.0.state == Service || res.0.state == Down
    decreases |outcomes|
  {
    if r.state != Service || outcomes == [] then (r, 0)
    else
      var next := RunService(ServiceStep(r, outcomes[0], cfg), outcomes[1..], cfg);
      (next.0, next.1 + 1)
  }

  /** The service loop only appends events. */
  lemma {:induction false} RunServiceExtends(r: Reader, outcomes: seq<ReadOutcome>, cfg: ServiceConfig)
    ensures r.events <= RunService(r, outcomes, cfg).0.events
    decreases |outcomes|
  {
    if r.state == Service && outcomes != [] {
      RunServiceExtends(ServiceStep(r, outcomes[0], cfg), outcomes[1..], cfg);
    }
  }

  /** Unfolds one turn of the service loop. */
  lemma RunServiceUnfold(r: Reader, outcomes: seq<ReadOutcome>, i: nat, cfg: ServiceConfig)
    requires r.state == Service && i < |outcomes|
    ensures var rest := RunService(ServiceStep(r, outcomes[i], cfg), outcomes[i + 1..], cfg);
      RunService(r, outcomes[i..], cfg) == (rest.0, rest.1 + 1)
  {
    assert outcomes[i..][1..] == outcomes[i + 1..];
  }

  /** A file replayed on repeat never leaves Service: every end of file
      seeks back to the start and every read is used. */
  lemma {:induction false} RepeatedFileNeverStops(r: Reader, outcomes: seq<ReadOutcome>, cfg: ServiceConfig)
    requires r.state == Service && cfg.repeat && cfg.isFileUrl
    ensures RunService(r, outcomes, cfg).0.state == Service
    ensures RunService(r, outcomes, cfg).1 == |outcomes|
    decreases |outcomes|
  {
    if outcomes != [] {
      RepeatedFileNeverStops(ServiceStep(r, outcomes[0], cfg), outcomes[1..], cfg);
    }
  }

  /** The service loop ends in Down only at an end of file that is not
      replayed, and that is the last read it uses; everything before it was
      a frame, a non-EOF error or a replayed end of file. */
  lemma {:induction false} ServiceStopsOnlyAtEof(r: Reader, outcomes: seq<ReadOutcome>, cfg: ServiceConfig)
    requires r.state == Service
    ensures var (fin, n) := RunService(r, outcomes, cfg);
      fin.state == Down ==>
        && n >= 1
        && outcomes[n - 1].ret == AvErrorEof
        && !(cfg.repeat && cfg.isFileUrl)
        && (cfg.hasObserver ==> |fin.events| > 0 && fin.events[|fin.events| - 1] == ReadEof)
    decreases |outcomes|
  {
    if outcomes != [] {
      var next := ServiceStep(r, outcomes[0], cfg);
      if next.state == Service {
        ServiceStopsOnlyAtEof(next, outcomes[1..], cfg);
        var (fin, n) := RunService(next, outcomes[1..], cfg);
        if fin.state == Down {
          assert outcomes[1..][n - 1] == outcomes[n];
        }
      }
    }
  }

  /** Frames handed on one after another by the service loop are spaced by at
      least the interval: the second leaves at max(its read time, the first's
      departure + interval). */
  lemma PacedFramesAreSpaced(r: Reader, o1: ReadOutcome, o2: ReadOutcome, cfg: ServiceConfig)
    requires o1.ret >= 0 && o2.ret >= 0 && o1.after != 0
    ensures var mid := ServiceStep(r, o1, cfg);
      mid.lastFrameTime == o1.after &&
      o2.now + PacingDelay(mid.lastFrameTime, o2.now, cfg.interval) >= o1.after + cfg.interval
  {
  }

  /** The fields the reader thread's dispatch loop writes. */
  datatype Machine = Machine(state: State, keepRunning: bool, isFileUrl: bool, lastFrameTime: int, rate: FrameRate, events: seq<Event>)

  /** What the dispatch loop reads but never writes: the URL, repeat and
      the observer. */
  datatype DispatchConfig = DispatchConfig(url: string, repeat: bool, hasObserver: bool)

  /** The results of one do_initialize attempt: avformat_open_input, then
      avformat_find_stream_info, and the avg_frame_rate the input opened
      then reports for its first stream. */
  datatype OpenResult = OpenResult(openRet: int, infoRet: int, rate: FrameRate)

  /** Where a stretch of the dispatch loop leaves the fields, and the
      positions of the next open result and the next read it would use. */
  datatype Dispatched = Dispatched(machine: Machine, nextOpen: nat, nextRead: nat)

  /** The Initialize case of the dispatch loop: do_initialize with the given
      open and stream-info results, then the one-second pause if it failed. */
  function InitializeStep(m: Machine, attempt: OpenResult, cfg: DispatchConfig): (m': Machine)
    ensures m'.keepRunning == m.keepRunning && m'.lastFrameTime == m.lastFrameTime
    ensures m'.isFileUrl == (m.isFileUrl || !IsRtspUrl(cfg.url))
    ensures OpenStatus(attempt.openRet, attempt.infoRet) == 0 ==>
      && m'.state == Service && m'.rate == attempt.rate
      && m'.events == m.events + (if cfg.hasObserver then [Opened] else [])
    ensures OpenStatus(attempt.openRet, attempt.infoRet) != 0 ==>
      m'.state == m.state && m'.rate == m.rate && m'.events == m.events + [RetryPause]
  {
    var fileUrl := m.isFileUrl || !IsRtspUrl(cfg.url);
    if OpenStatus(attempt.openRet, attempt.infoRet) == 0 then
      m.(state := Service, isFileUrl := fileUrl, rate := attempt.rate,
         events := m.events + (if cfg.hasObserver then [Opened] else []))
    else
      m.(isFileUrl := fileUrl, events := m.events + [RetryPause])
  }

  /** The Down case of the dispatch loop: do_down. */
  function DownStep(m: Machine, cfg: DispatchConfig): (m': Machine)
    ensures m'.events == m.events + (if cfg.hasObserver then [Closed] else [])
    ensures cfg.repeat ==> m'.state == Initialize && m'.keepRunning == m.keepRunning
    ensures !cfg.repeat ==> m'.state == m.state && !m'.keepRunning
    ensures m'.isFileUrl == m.isFileUrl && m'.lastFrameTime == m.lastFrameTime && m'.rate == m.rate
  {
    var ev := m.events + (if cfg.hasObserver then [Closed] else []);
    if cfg.repeat then m.(state := Initialize, events := ev) else m.(keepRunning := false, events := ev)
  }

  /** The Service case of the dispatch loop: do_service over the reads
      available, paced at the frame rate of the input opened last and with
      the URL kind the last open recorded; it returns the new fields and how
      many reads were used. */
  function ServicePass(m: Machine, outcomes: seq<ReadOutcome>, cfg: DispatchConfig): (res: (Machine, nat))
    requires m.state == Service
    ensures res.1 <= |outcomes| && (outcomes != [] ==> res.1 >= 1)
    ensures res.0.state == Service || res.0.state == Down
    ensures res.0.state == Service ==> res.1 == |outcomes|
    ensures res.0.keepRunning == m.keepRunning && res.0.isFileUrl == m.isFileUrl && res.0.rate == m.rate
  {
    var run := RunService(Reader(m.state, m.lastFrameTime, m.events), outcomes,
                          ServiceConfig(cfg.repeat, m.isFileUrl, cfg.hasObserver, FrameInterval(m.rate.num, m.rate.den)));
    (m.(state := run.0.state, lastFrameTime := run.0.lastFrameTime, events := run.0.events), run.1)
  }

  /** The states in which the dispatch loop makes no further pass, the next
      open result being at i and the next read at j: it was told to stop, or
      the input its state needs has run out. */
  predicate Idle(m: Machine, opens: seq<OpenResult>, i: nat, outcomes: seq<ReadOutcome>, j: nat) {
    !m.keepRunning || (m.state == Initialize && i >= |opens|) || (m.state == Service && j >= |outcomes|)
  }

  /** One pass of the reader thread's `switch (m_work_state)` with the next
      open result at i and the next read at j: the new fields and where the
      inputs stand after it. */
  function DispatchStep(m: Machine, opens: seq<OpenResult>, i: nat, outcomes: seq<ReadOutcome>, j: nat, cfg: DispatchConfig)
    : (res: Dispatched)
    requires i <= |opens| && j <= |outcomes| && !Idle(m, opens, i, outcomes, j)
    ensures i <= res.nextOpen <= |opens| && j <= res.nextRead <= |outcomes|
    ensures res.nextOpen == i && res.nextRead == j ==>
      && m.state == Down
      && ((res.machine.state == Initialize && res.machine.keepRunning) || (res.machine.state == Down && !res.machine.keepRunning))
  {
    match m.state
    case Initialize => Dispatched(InitializeStep(m, opens[i], cfg), i + 1, j)
    case Service =>
      var pass := ServicePass(m, outcomes[j..], cfg);
      Dispatched(pass.0, i, j + pass.1)
    case Down => Dispatched(DownStep(m, cfg), i, j)
  }

  /** A pass of the switch keeps a file URL a file URL, only appends events,
      and clears keep-running only in Down without repeat. */
  lemma DispatchStepKeeps(m: Machine, opens: seq<OpenResult>, i: nat, outcomes: seq<ReadOutcome>, j: nat, cfg: DispatchConfig)
    requires i <= |opens| && j <= |outcomes| && !Idle(m, opens, i, outcomes, j)
    ensures var res := DispatchStep(m, opens, i, outcomes, j, cfg);
      && (m.isFileUrl ==> res.machine.isFileUrl)
      && m.events <= res.machine.events
      && (!res.machine.keepRunning ==> !cfg.repeat && res.machine.state == Down)
  {
    if m.state == Service {
      RunServiceExtends(Reader(m.state, m.lastFrameTime, m.events), outcomes[j..],
                        ServiceConfig(cfg.repeat, m.isFileUrl, cfg.hasObserver, FrameInterval(m.rate.num, m.rate.den)));
    }
  }

  /** The reader thread's loop `while (m_keep_running) switch (m_work_state)`
      over finite runs of open results and reads, from the open result at i
      and the read at j: the final fields and where the inputs stand then. */
  function RunFrom(m: Machine, opens: seq<OpenResult>, i: nat, outcomes: seq<ReadOutcome>, j: nat, cfg: DispatchConfig)
    : (res: Dispatched)
    requires i <= |opens| && j <= |outcomes|
    ensures i <= res.nextOpen <= |opens| && j <= res.nextRead <= |outcomes|
    decreases |opens| - i + |outcomes| - j, if m.state == Down then 1 else 0, if m.keepRunning then 1 else 0
  {
    if Idle(m, opens, i, outcomes, j) then Dispatched(m, i, j)
    else
      var step := DispatchStep(m, opens, i, outcomes, j, cfg);
      RunFrom(step.machine, opens, step.nextOpen, outcomes, step.nextRead, cfg)
  }

  /** The dispatch loop over whole runs of open results and reads: the
      final fields, and how many of each were used. */
  function RunDispatch(m: Machine, opens: seq<OpenResult>, outcomes: seq<ReadOutcome>, cfg: DispatchConfig): (res: Dispatched)
    ensures res.nextOpen <= |opens| && res.nextRead <= |outcomes|
  {
    RunFrom(m, opens, 0, outcomes, 0, cfg)
  }

  /** What the dispatch loop keeps: the URL once seen as a file stays one,
      and events are only appended. */
  lemma {:induction false} DispatchExtends(m: Machine, opens: seq<OpenResult>, i: nat, outcomes: seq<ReadOutcome>, j: nat, cfg: DispatchConfig)
    requires i <= |opens| && j <= |outcomes|
    ensures var res := RunFrom(m, opens, i, outcomes, j, cfg);
      (m.isFileUrl ==> res.machine.isFileUrl) && m.events <= res.machine.events
    decreases |opens| - i + |outcomes| - j, if m.state == Down then 1 else 0, if m.keepRunning then 1 else 0
  {
    if !Idle(m, opens, i, outcomes, j) {
      var step := DispatchStep(m, opens, i, outcomes, j, cfg);
      DispatchStepKeeps(m, opens, i, outcomes, j, cfg);
      DispatchExtends(step.machine, opens, step.nextOpen, outcomes, step.nextRead, cfg);
    }
  }

  /** Where the dispatch loop stops: a stopped reader does nothing, the loop
      clears keep-running only in Down without repeat, and otherwise it
      stops because the input its state needs has run out. */
  lemma {:induction false} DispatchStops(m: Machine, opens: seq<OpenResult>, i: nat, outcomes: seq<ReadOutcome>, j: nat, cfg: DispatchConfig)
    requires i <= |opens| && j <= |outcomes|
    ensures var res := RunFrom(m, opens, i, outcomes, j, cfg);
      && (!m.keepRunning ==> res == Dispatched(m, i, j))
      && (m.keepRunning && !res.machine.keepRunning ==> !cfg.repeat && res.machine.state == Down)
      && (res.machine.keepRunning ==>
            || (res.machine.state == Initialize && res.nextOpen == |opens|)
            || (res.machine.state == Service && res.nextRead == |outcomes|))
    decreases |opens| - i + |outcomes| - j, if m.state == Down then 1 else 0, if m.keepRunning then 1 else 0
  {
    if !Idle(m, opens, i, outcomes, j) {
      var step := DispatchStep(m, opens, i, outcomes, j, cfg);
      DispatchStepKeeps(m, opens, i, outcomes, j, cfg);
      DispatchStops(step.machine, opens, step.nextOpen, outcomes, step.nextRead, cfg);
    }
  }

  /** A failed open in Initialize records the one-second pause, stays in
      Initialize and retries with the next open result. */
  lemma FailedOpenRetries(m: Machine, opens: seq<OpenResult>, i: nat, outcomes: seq<ReadOutcome>, j: nat, cfg: DispatchConfig)
    requires m.keepRunning && m.state == Initialize && i < |opens| && j <= |outcomes|
    requires OpenStatus(opens[i].openRet, opens[i].infoRet) != 0
    ensures var m' := m.(isFileUrl := m.isFileUrl || !IsRtspUrl(cfg.url), events := m.events + [RetryPause]);
      RunFrom(m, opens, i, outcomes, j, cfg) == RunFrom(m', opens, i + 1, outcomes, j, cfg)
  {
  }

  /** While every open fails, the reader keeps retrying: it stays in
      Initialize and running, uses every open result and no read, and
      records one pause per attempt. */
  lemma {:induction false} FailingOpensRetryForever(m: Machine, opens: seq<OpenResult>, i: nat, outcomes: seq<ReadOutcome>, j: nat, cfg: DispatchConfig)
    requires m.keepRunning && m.state == Initialize && i <= |opens| && j <= |outcomes|
    requires forall k :: i <= k < |opens| ==> OpenStatus(opens[k].openRet, opens[k].infoRet) != 0
    ensures var res := RunFrom(m, opens, i, outcomes, j, cfg);
      && res.machine.state == Initialize && res.machine.keepRunning
      && res.nextOpen == |opens| && res.nextRead == j
      && res.machine.events == m.events + seq(|opens| - i, _ => RetryPause)
    decreases |opens| - i
  {
    if i < |opens| {
      var m' := InitializeStep(m, opens[i], cfg);
      FailingOpensRetryForever(m', opens, i + 1, outcomes, j, cfg);
      assert m.events + seq(|opens| - i, _ => RetryPause) == m'.events + seq(|opens| - (i + 1), _ => RetryPause);
    }
  }

  /** A re-opened input is paced at its own rate: the Service pass that
      follows a successful open reads at the interval of the frame rate that
      open reports, whatever rate an earlier open reported. */
  lemma ServiceAfterOpenUsesItsRate(m: Machine, opens: seq<OpenResult>, i: nat, outcomes: seq<ReadOutcome>, j: nat, cfg: DispatchConfig)
    requires m.keepRunning && m.state == Initialize && i < |opens| && j < |outcomes|
    requires OpenStatus(opens[i].openRet, opens[i].infoRet) == 0
    ensures var first := DispatchStep(m, opens, i, outcomes, j, cfg);
      && first.machine.state == Service && first.nextOpen == i + 1 && first.nextRead == j
      && (var served := DispatchStep(first.machine, opens, i + 1, outcomes, j, cfg);
          var run := RunService(Reader(Service, m.lastFrameTime, first.machine.events), outcomes[j..],
                                ServiceConfig(cfg.repeat, first.machine.isFileUrl, cfg.hasObserver,
                                              FrameInterval(opens[i].rate.num, opens[i].rate.den)));
          && served.machine.state == run.0.state
          && served.machine.lastFrameTime == run.0.lastFrameTime
          && served.machine.events == run.0.events
          && served.nextRead == j + run.1)
  {
  }

  /** StreamDemuxer. */
  class StreamDemuxer {
    var workState: State
    var inputUrl: string
    var hasObserver: bool
    var repeat: bool
    var keepRunning: bool
    var lastFrameTime: int
    /** m_ifmt_ctx->streams[0]->avg_frame_rate of the input opened last. */
    var frameRate: FrameRate
    var isFileUrl: bool
    /** m_thread_reading != nullptr. */
    var threadStarted: bool
    var events: seq<Event>

    /** The constructor leaves m_work_state, m_repeat and m_keep_running
        uninitialised; the model leaves them open, and the frame rate too,
        since no input is open yet. */
    constructor ()
      ensures lastFrameTime == 0 && !isFileUrl && !threadStarted && !hasObserver
      ensures inputUrl == [] && events == []
    {
      workState := *;
      repeat := *;
      keepRunning := *;
      inputUrl := [];
      hasObserver := false;
      lastFrameTime := 0;
      frameRate := *;
      isFileUrl := false;
      threadStarted := false;
      events := [];
    }

    function Config(interval: int): ServiceConfig
      reads this
    {
      ServiceConfig(repeat, isFileUrl, hasObserver, interval)
    }

    /** do_initialize: classify the URL, open the input, probe its streams. */
    method DoInitialize(attempt: OpenResult) returns (r: int)
      modifies this`isFileUrl, this`workState, this`frameRate, this`events
      ensures isFileUrl == (old(isFileUrl) || !IsRtspUrl(inputUrl))
      ensures r == OpenStatus(attempt.openRet, attempt.infoRet)
      ensures r != 0 ==> workState == old(workState) && frameRate == old(frameRate) && events == old(events)
      ensures r == 0 ==>
        workState == Service && frameRate == attempt.rate && events == old(events) + (if hasObserver then [Opened] else [])
    {
      if !IsRtspUrl(inputUrl) {
        isFileUrl := true;
      }
      if attempt.openRet < 0 {
        return attempt.openRet;
      }
      if attempt.infoRet < 0 {
        return attempt.infoRet;
      }
      frameRate := attempt.rate;
      if hasObserver {
        events := events + [Opened];
      }
      workState := Service;
      r := 0;
    }

    /** do_down: close the input, then go round again on repeat or stop. */
    method DoDown()
      modifies this`workState, this`keepRunning, this`events
      ensures events == old(events) + (if hasObserver then [Closed] else [])
      ensures repeat ==> workState == Initialize && keepRunning == old(keepRunning)
      ensures !repeat ==> workState == old(workState) && !keepRunning
    {
      if hasObserver {
        events := events + [Closed];
      }
      if repeat {
        workState := Initialize;
      } else {
        keepRunning := false;
      }
    }

    /** do_service over the reads available, paced at the frame rate of the
        open input: the loop runs while the state is Service; `consumed`
        counts the reads it used. */
    method DoService(outcomes: seq<ReadOutcome>) returns (consumed: nat)
      modifies this`workState, this`lastFrameTime, this`events
      ensures (Reader(workState, lastFrameTime, events), consumed)
           == RunService(Reader(old(workState), old(lastFrameTime), old(events)), outcomes,
                         Config(FrameInterval(frameRate.num, frameRate.den)))
    {
      var interval := FrameInterval(frameRate.num, frameRate.den);
      consumed := ReadLoop(outcomes, interval);
    }

    /** do_service's `while (Service == m_work_state)` loop, pacing frames
        `interval` microseconds apart. */
    method ReadLoop(outcomes: seq<ReadOutcome>, interval: int) returns (consumed: nat)
      modifies this`workState, this`lastFrameTime, this`events
      ensures (Reader(workState, lastFrameTime, events), consumed)
           == RunService(Reader(old(workState), old(lastFrameTime), old(events)), outcomes, Config(interval))
    {
      ghost var cfg := Config(interval);
      ghost var goal := RunService(Reader(workState, lastFrameTime, events), outcomes, cfg);

      consumed := 0;
      while workState == Service && consumed < |outcomes|
        invariant consumed <= |outcomes|
        invariant cfg == Config(interval)
        invariant RunService(Reader(workState, lastFrameTime, events), outcomes[consumed..], cfg) == (goal.0, goal.1 - consumed)
        decreases |outcomes| - consumed
      {
        ghost var cur := Reader(workState, lastFrameTime, events);
        var o := outcomes[consumed];
        RunServiceUnfold(cur, outcomes, consumed, cfg);
        consumed := consumed + 1;
        if o.ret < 0 {
          OnReadFailure(o, interval);
        } else {
          HandOnFrame(o, interval);
        }
        assert Reader(workState, lastFrameTime, events) == ServiceStep(cur, o, cfg);
      }
      assert consumed == |outcomes| ==> outcomes[consumed..] == [];
      assert RunService(Reader(workState, lastFrameTime, events), outcomes[consumed..], cfg)
          == (Reader(workState, lastFrameTime, events), 0);
    }

    /** The failure path of do_service's loop: an error other than end of
        file is skipped; at end of file a repeated file is rewound, and
        otherwise on_read_eof is reported and the state goes Down, which
        ends the loop. */
    method OnReadFailure(o: ReadOutcome, interval: int)
      requires o.ret < 0
      modifies this`workState, this`events
      ensures Reader(workState, lastFrameTime, events)
           == ServiceStep(Reader(old(workState), lastFrameTime, old(events)), o, ServiceConfig(repeat, isFileUrl, hasObserver, interval))
    {
      if o.ret != AvErrorEof {
        return;
      }
      if repeat && isFileUrl {
        events := events + [Rewound(o.seekRet)];
      } else {
        events := events + EofEvents(hasObserver);
        workState := Down;
      }
    }

    /** The frame path of do_service's loop: pace against the previous
        frame, stamp this one, hand it to the observer. */
    method HandOnFrame(o: ReadOutcome, interval: int)
      requires o.ret >= 0
      modifies this`lastFrameTime, this`events
      ensures Reader(workState, lastFrameTime, events)
           == ServiceStep(Reader(workState, old(lastFrameTime), old(events)), o, ServiceConfig(repeat, isFileUrl, hasObserver, interval))
    {
      if lastFrameTime != 0 {
        var delta := o.now - lastFrameTime;
        if interval > delta {
          events := events + [Slept(interval - delta)];
        }
      }
      lastFrameTime := o.after;
      if hasObserver {
        events := events + [FrameRead];
      }
    }

    function Fields(): Machine
      reads this
    {
      Machine(workState, keepRunning, isFileUrl, lastFrameTime, frameRate, events)
    }

    /** One pass of the reader thread's `switch (m_work_state)`, with the
        next open result at i and the next read at j; it returns where the
        inputs stand after it. */
    method DispatchOnce(opens: seq<OpenResult>, i: nat, outcomes: seq<ReadOutcome>, j: nat)
      returns (nextOpen: nat, nextRead: nat)
      requires i <= |opens| && j <= |outcomes| && !Idle(Fields(), opens, i, outcomes, j)
      modifies this`workState, this`isFileUrl, this`keepRunning, this`lastFrameTime, this`frameRate, this`events
      ensures Dispatched(Fields(), nextOpen, nextRead)
           == DispatchStep(old(Fields()), opens, i, outcomes, j, DispatchConfig(inputUrl, repeat, hasObserver))
    {
      ghost var cfg := DispatchConfig(inputUrl, repeat, hasObserver);
      ghost var cur := Fields();
      nextOpen, nextRead := i, j;
      match workState {
      case Initialize =>
        var r := DoInitialize(opens[i]);
        if r != 0 {
          events := events + [RetryPause];
        }
        nextOpen := i + 1;
        assert Fields() == InitializeStep(cur, opens[i], cfg);
      case Service =>
        var n := DoService(outcomes[j..]);
        nextRead := j + n;
        assert (Fields(), n) == ServicePass(cur, outcomes[j..], cfg);
      case Down =>
        DoDown();
        assert Fields() == DownStep(cur, cfg);
      }
    }

    /** The reader thread's dispatch loop, run over the open results and
        reads available: the new fields and the inputs used are those of
        RunDispatch from the old fields. */
    method RunReader(opens: seq<OpenResult>, outcomes: seq<ReadOutcome>)
      returns (opensUsed: nat, readsUsed: nat)
      modifies this`workState, this`isFileUrl, this`keepRunning, this`lastFrameTime, this`frameRate, this`events
      ensures Dispatched(Fields(), opensUsed, readsUsed)
           == RunDispatch(old(Fields()), opens, outcomes, DispatchConfig(inputUrl, repeat, hasObserver))
      ensures !old(keepRunning) ==> unchanged(this) && opensUsed == 0 && readsUsed == 0
      ensures old(keepRunning) && !keepRunning ==> !repeat && workState == Down
      ensures keepRunning ==>
        (workState == Initialize && opensUsed == |opens|) || (workState == Service && readsUsed == |outcomes|)
    {
      ghost var cfg := DispatchConfig(inputUrl, repeat, hasObserver);
      ghost var goal := RunDispatch(Fields(), opens, outcomes, cfg);
      DispatchStops(Fields(), opens, 0, outcomes, 0, cfg);
      opensUsed, readsUsed := 0, 0;
      while !Idle(Fields(), opens, opensUsed, outcomes, readsUsed)
        invariant opensUsed <= |opens| && readsUsed <= |outcomes|
        invariant cfg == DispatchConfig(inputUrl, repeat, hasObserver)
        invariant RunFrom(Fields(), opens, opensUsed, outcomes, readsUsed, cfg) == goal
        decreases |opens| - opensUsed + |outcomes| - readsUsed, if workState == Down then 1 else 0, if keepRunning then 1 else 0
      {
        opensUsed, readsUsed := DispatchOnce(opens, opensUsed, outcomes, readsUsed);
      }
    }

    /** open_stream: stop what runs, take the new URL, optionally open it at
        once, then start the reader. */
    method OpenStream(url: string, observer: bool, repeat: bool, isSyncOpen: bool, attempt: OpenResult)
      returns (r: int)
      modifies this
      ensures inputUrl == url && hasObserver == observer && this.repeat == repeat
      ensures lastFrameTime == old(lastFrameTime)
      ensures r == 0 || (isSyncOpen && r == OpenStatus(attempt.openRet, attempt.infoRet) && r < 0)
      ensures isSyncOpen ==> r == OpenStatus(attempt.openRet, attempt.infoRet)
      ensures !isSyncOpen ==> r == 0
      ensures r == 0 ==> events == old(events) + (if isSyncOpen && observer then [Opened] else [])
      ensures r < 0 ==> workState == Initialize && !threadStarted && keepRunning == old(keepRunning) && events == old(events)
      ensures r == 0 ==> keepRunning && threadStarted && workState == (if isSyncOpen then Service else Initialize)
      ensures isFileUrl == (old(isFileUrl) || (isSyncOpen && !IsRtspUrl(url)))
      ensures frameRate == if isSyncOpen && r == 0 then attempt.rate else old(frameRate)
    {
      var _ := CloseStream(false);
      inputUrl := url;
      hasObserver := observer;
      this.repeat := repeat;
      workState := Initialize;
      if isSyncOpen {
        r := DoInitialize(attempt);
        if r < 0 {
          return r;
        }
      }
      keepRunning := true;
      threadStarted := true;
      r := 0;
    }

    /** close_stream: unless asked to wait, force Down and cancel repeat;
        then join the reader. */
    method CloseStream(isWaiting: bool) returns (r: int)
      modifies this`workState, this`repeat, this`threadStarted
      ensures r == 0 && !threadStarted
      ensures !isWaiting ==> workState == Down && !repeat
      ensures isWaiting ==> workState == old(workState) && repeat == old(repeat)
    {
      if !isWaiting {
        workState := Down;
        repeat := false;
      }
      threadStarted := false;
      r := 0;
    }
  }
}
