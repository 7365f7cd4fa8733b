/** The vitals dialog of src/components/LogVitalsModal.tsx: the simulated
    camera heart-rate scan (a 100 ms tick that drifts the live reading inside
    [65, 85] and a 5 s timer that settles on a reading in [70, 82]), the
    simulated wearable sync, submission and the clean-up on closing.
    `Math.random()` is a parameter `r` with 0 <= r < 1; camera streams are
    numbered handles. */
module LogVitals {
  import opened Types
  import opened Text

  /** `Math.floor(Math.random() * 5) - 2`: the drift of one tick. */
  function Change(r: real): (c: int)
    requires 0.0 <= r < 1.0
    ensures -2 <= c <= 2
  {
    (r * 5.0).Floor - 2
  }

  /** Every drift from -2 to 2 is drawn for some random value. */
  lemma ChangeTakesEveryValue(c: int)
    requires -2 <= c <= 2
    ensures Change((c + 2) as real / 5.0) == c
  {
    var r := (c + 2) as real / 5.0;
    assert r * 5.0 == (c + 2) as real;
  }

  /** `Math.min(Math.max(prev + change, 65), 85)`: the reading after a tick. */
  function NextBpm(prev: int, change: int): (b: int)
    ensures 65 <= b <= 85
    ensures 65 <= prev + change <= 85 ==> b == prev + change
    ensures prev + change < 65 ==> b == 65
    ensures prev + change > 85 ==> b == 85
  {
    var lifted := if prev + change > 65 then prev + change else 65;
    if lifted < 85 then lifted else 85
  }

  /** Inside the band a tick moves the reading by at most the drift. */
  lemma NextBpmStaysClose(prev: int, change: int)
    requires 65 <= prev <= 85 && -2 <= change <= 2
    ensures -2 <= NextBpm(prev, change) - prev <= 2
    ensures change == 0 ==> NextBpm(prev, change) == prev
  {
  }

  /** A scan starts the reading at 60, below the band, so the first tick
      reads 65 whatever the drift. */
  lemma FirstTickReads65(r: real)
    requires 0.0 <= r < 1.0
    ensures NextBpm(60, Change(r)) == 65
  {
  }

  /** The reading after the ticks drawn from `rs[..n]`, starting from 60. */
  function LiveBpmAfter(rs: seq<real>, n: nat): int
    requires n <= |rs|
    requires forall i :: 0 <= i < |rs| ==> 0.0 <= rs[i] < 1.0
  {
    if n == 0 then 60 else NextBpm(LiveBpmAfter(rs, n - 1), Change(rs[n - 1]))
  }

  /** Once a scan has ticked, the live reading is in [65, 85] and consecutive
      readings differ by at most 2, except for the jump from 60 to 65. */
  lemma {:induction false} LiveBpmBounded(rs: seq<real>, n: nat)
    requires 1 <= n <= |rs|
    requires forall i :: 0 <= i < |rs| ==> 0.0 <= rs[i] < 1.0
    ensures 65 <= LiveBpmAfter(rs, n) <= 85
    ensures LiveBpmAfter(rs, 1) == 65
    ensures n >= 2 ==> -2 <= LiveBpmAfter(rs, n) - LiveBpmAfter(rs, n - 1) <= 2
  {
    FirstTickReads65(rs[0]);
    if n >= 2 {
      LiveBpmBounded(rs, n - 1);
      NextBpmStaysClose(LiveBpmAfter(rs, n - 1), Change(rs[n - 1]));
    }
  }

  /** `Math.floor(Math.random() * (82 - 70 + 1) + 70)`: the settled reading. */
  function FinalBpm(r: real): (b: int)
    requires 0.0 <= r < 1.0
    ensures 70 <= b <= 82
  {
    (r * 13.0 + 70.0).Floor
  }

  /** Every reading from 70 to 82 is settled on for some random value. */
  lemma FinalBpmTakesEveryValue(b: int)
    requires 70 <= b <= 82
    ensures FinalBpm((b - 70) as real / 13.0) == b
  {
    var r := (b - 70) as real / 13.0;
    assert r * 13.0 + 70.0 == b as real;
  }

  /** `finalBPM.toString()`: two decimal digits, never the empty string. */
  lemma FinalBpmText(r: real)
    requires 0.0 <= r < 1.0
    ensures var t := NatToString(FinalBpm(r)); |t| == 2 && AllDigits(t) && t[0] in "78"
  {
    var b := FinalBpm(r);
    assert NatToString(b) == NatToString(b / 10) + [DecimalDigit(b % 10)];
    assert NatToString(b / 10) == [DecimalDigit(b / 10)];
  }

  /** The `cameraStream` state together with every stream `getUserMedia`
      handed out and every stream whose tracks were stopped. */
  datatype Camera = Camera(stream: Option<nat>, acquired: seq<nat>, stopped: seq<nat>)

  /** Streams acquired and not stopped: the camera is on while this is
      non-empty. */
  function Running(c: Camera): set<nat> {
    set s | s in c.acquired && s !in c.stopped
  }

  /** A stream `getUserMedia` has not handed out before. */
  predicate Fresh(c: Camera, g: nat) {
    g !in c.acquired && g !in c.stopped
  }

  /** `setCameraStream(stream)` after a granted `getUserMedia`; a denied one
      leaves the state alone. */
  function Acquire(c: Camera, granted: Option<nat>): (r: Camera)
    requires granted.Some? ==> Fresh(c, granted.value)
    ensures granted.Some? ==> r.stream == granted && Running(r) == Running(c) + {granted.value}
    ensures granted.None? ==> r == c
  {
    if granted.Some? then Camera(granted, c.acquired + [granted.value], c.stopped) else c
  }

  /** `stopCamera` run by a closure whose `cameraStream` is `seen`: a held
      stream is stopped and the state cleared; nothing happens otherwise. */
  function StopSeen(c: Camera, seen: Option<nat>): (r: Camera)
    ensures r.acquired == c.acquired
    ensures seen.None? ==> r == c
    ensures seen.Some? ==> r.stream.None? && Running(r) == Running(c) - {seen.value}
  {
    if seen.Some? then Camera(None, c.acquired, c.stopped + [seen.value]) else c
  }

  /** `stopCamera` reading the current state. */
  function Release(c: Camera): (r: Camera)
    ensures r.stream.None?
    ensures c.stream.Some? ==> Running(r) == Running(c) - {c.stream.value}
    ensures c.stream.None? ==> r == c
  {
    StopSeen(c, c.stream)
  }

  /** As written, the finish timer stops the stream its closure saw when the
      scan button was clicked. Starting from a dialog that holds no camera,
      that is none, so the stream acquired for the scan is still held and
      still running once the scan has finished. */
  lemma FinishAsWrittenLeavesCameraOn(c: Camera, g: nat)
    requires c.stream.None? && Fresh(c, g)
    ensures var after := StopSeen(Acquire(c, Some(g)), c.stream);
      after.stream == Some(g) && g in Running(after)
  {
  }

  /** Stopping the stream the state holds when the timer fires, a scan that
      starts with no camera held ends with none held and with no stream
      running that was not running before it. */
  lemma FinishReleasesCamera(c: Camera, granted: Option<nat>)
    requires c.stream.None?
    requires granted.Some? ==> Fresh(c, granted.value)
    ensures Release(Acquire(c, granted)).stream.None?
    ensures Running(Release(Acquire(c, granted))) == Running(c)
  {
    if granted.Some? {
      assert granted.value !in Running(c);
    }
  }

  /** What `onSave` receives. */
  datatype Vitals = Vitals(heartRate: string, sleep: string, water: string)

  class VitalsDialog {
    var heartRate: string
    var sleep: string
    var water: string
    var isScanning: bool
    var scanProgress: int
    var liveBPM: int
    var camera: Camera
    var isSyncing: bool
    /** Finish timers of started scans, oldest first, each with the
        `cameraStream` its closure saw; a scan's tick interval runs until its
        finish timer fires. */
    var scanTimers: seq<Option<nat>>
    /** Sync timers, oldest first, each with whether the heart rate its
        closure saw was empty. */
    var syncTimers: seq<bool>
    /** Everything passed to `onSave`. */
    var saved: seq<Vitals>

    constructor ()
      ensures heartRate == "" && sleep == "" && water == ""
      ensures !isScanning && scanProgress == 0 && liveBPM == 0 && !isSyncing
      ensures camera == Camera(None, [], []) && scanTimers == [] && syncTimers == [] && saved == []
    {
      heartRate, sleep, water := "", "", "";
      isScanning, scanProgress, liveBPM := false, 0, 0;
      camera := Camera(None, [], []);
      isSyncing := false;
      scanTimers, syncTimers, saved := [], [], [];
    }

    /** The clean-up effect when `isOpen` turns false: the held stream is
        stopped and scanning ends. Timers already started keep running. */
    method Close()
      modifies this`camera, this`isScanning
      ensures camera == Release(old(camera)) && !isScanning
    {
      camera := Release(camera);
      isScanning := false;
    }

    method HeartRateChange(value: string)
      modifies this`heartRate
      ensures heartRate == value
    {
      heartRate := value;
    }

    method SleepChange(value: string)
      modifies this`sleep
      ensures sleep == value
    {
      sleep := value;
    }

    method WaterChange(value: string)
      modifies this`water
      ensures water == value
    {
      water := value;
    }

    /** `startHeartRateScan`, with the camera request's outcome as
        `granted`. The button belongs to the form, which is hidden while
        scanning. */
    method StartScan(granted: Option<nat>)
      requires !isScanning
      requires granted.Some? ==> Fresh(camera, granted.value)
      modifies this`isScanning, this`scanProgress, this`liveBPM, this`camera, this`scanTimers
      ensures isScanning && scanProgress == 0 && liveBPM == 60
      ensures camera == Acquire(old(camera), granted)
      ensures scanTimers == old(scanTimers) + [old(camera).stream]
    {
      var seen := camera.stream;
      isScanning, scanProgress, liveBPM := true, 0, 60;
      camera := Acquire(camera, granted);
      scanTimers := scanTimers + [seen];
    }

    /** One tick of a running scan interval, drawing `r`. */
    method Tick(r: real)
      requires 0.0 <= r < 1.0 && scanTimers != []
      modifies this`liveBPM, this`scanProgress
      ensures liveBPM == NextBpm(old(liveBPM), Change(r))
      ensures 65 <= liveBPM <= 85
      ensures scanProgress == old(scanProgress) + 2
    {
      liveBPM := NextBpm(liveBPM, Change(r));
      scanProgress := scanProgress + 2;
    }

    /** The oldest scan's finish timer fires as written: its interval is
        cleared, the stream its closure saw is stopped, scanning ends and the
        heart rate becomes the settled reading drawn from `r`. */
    method FinishScanAsWritten(r: real)
      requires 0.0 <= r < 1.0 && scanTimers != []
      modifies this`scanTimers, this`camera, this`isScanning, this`heartRate
      ensures scanTimers == old(scanTimers[1..])
      ensures camera == StopSeen(old(camera), old(scanTimers[0]))
      ensures !isScanning && heartRate == NatToString(FinalBpm(r))
    {
      camera := StopSeen(camera, scanTimers[0]);
      scanTimers := scanTimers[1..];
      isScanning := false;
      heartRate := NatToString(FinalBpm(r));
    }

    /** The finish timer stopping the stream held when it fires, which
        releases the camera the scan acquired. */
    method FinishScan(r: real)
      requires 0.0 <= r < 1.0 && scanTimers != []
      modifies this`scanTimers, this`camera, this`isScanning, this`heartRate
      ensures scanTimers == old(scanTimers[1..])
      ensures camera == Release(old(camera)) && camera.stream.None?
      ensures !isScanning && heartRate == NatToString(FinalBpm(r)) && heartRate != ""
    {
      FinalBpmText(r);
      camera := Release(camera);
      scanTimers := scanTimers[1..];
      isScanning := false;
      heartRate := NatToString(FinalBpm(r));
    }

    /** `handleSmartSync`: the button is disabled while syncing and hidden
        while scanning. The timer's closure sees the heart rate as it is now. */
    method BeginSync()
      requires !isSyncing && !isScanning
      modifies this`isSyncing, this`syncTimers
      ensures isSyncing && syncTimers == old(syncTimers) + [old(heartRate) == ""]
    {
      isSyncing := true;
      syncTimers := syncTimers + [heartRate == ""];
    }

    /** The oldest sync timer fires: sleep and water get the wearable's
        values, the heart rate falls back to 72 only when it was empty at the
        click, and syncing ends. */
    method SyncTimerFires()
      requires syncTimers != []
      modifies this`sleep, this`water, this`heartRate, this`isSyncing, this`syncTimers
      ensures sleep == "7h 45m" && water == "1.8" && !isSyncing
      ensures old(syncTimers[0]) ==> heartRate == "72"
      ensures !old(syncTimers[0]) ==> heartRate == old(heartRate)
      ensures syncTimers == old(syncTimers[1..])
    {
      sleep := "7h 45m";
      water := "1.8";
      if syncTimers[0] {
        heartRate := "72";
      }
      isSyncing := false;
      syncTimers := syncTimers[1..];
    }

    /** `handleSubmit`: the three inputs are `required`, so the browser only
        submits them non-empty, and the form is hidden while scanning. The
        current values go to `onSave` and the fields are cleared. */
    method Submit()
      requires !isScanning && heartRate != "" && sleep != "" && water != ""
      modifies this`saved, this`heartRate, this`sleep, this`water
      ensures saved == old(saved) + [Vitals(old(heartRate), old(sleep), old(water))]
      ensures heartRate == "" && sleep == "" && water == ""
    {
      saved := saved + [Vitals(heartRate, sleep, water)];
      heartRate, sleep, water := "", "", "";
    }
  }
}
