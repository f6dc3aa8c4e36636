/**
 * The simulated renderer: a status, a progress percentage, an append-only
 * log fed by a fixed list of eleven messages, the published video URL and the
 * render settings.  The interval timer is the environment: it calls `Tick`
 * once per period; the clock reading for the URL is a parameter of `Tick`.
 */
module Renderer {
  import opened Text
  import opened Requirements

  datatype RenderStatus = Idle | Preparing | Rendering | Completed | Error

  /** The first log line, written by `startRendering`. */
  const InitialLogLine: string := "Initializing Manim renderer..."

  /** The messages the timer appends, one per tick. */
  const Steps: seq<string> := [
    "Preparing script environment...",
    "Loading Manim libraries...",
    "Parsing scene structure...",
    "Initializing animation objects...",
    "Rendering scene 1: Introduction...",
    "Rendering scene 2: Main content...",
    "Rendering scene 3: Conclusion...",
    "Compiling video frames...",
    "Encoding to MP4 format...",
    "Finalizing video output...",
    "Video generation completed!"
  ]

  /** `((k + 1) / steps.length) * 100`, the progress a tick sets after message `k`, as an exact rational. */
  function TickProgress(k: nat): real
    requires k < |Steps|
  {
    ((k + 1) as real / |Steps| as real) * 100.0
  }

  /** The progress after `k` messages: 0 before the first tick, then the last tick's value. */
  function Progress(k: nat): (r: real)
    requires k <= |Steps|
    ensures 0.0 <= r <= 100.0
    ensures r == 100.0 <==> k == |Steps|
    ensures r == k as real * 100.0 / 11.0
  {
    if k == 0 then 0.0 else TickProgress(k - 1)
  }

  /** Progress never decreases, and strictly grows with every message. */
  lemma ProgressIncreasing(i: nat, j: nat)
    requires i < j <= |Steps|
    ensures Progress(i) < Progress(j)
  {
  }

  /** The log after `k` messages: the initial line, then the first `k` messages. */
  function LogAfter(k: nat): (r: seq<string>)
    requires k <= |Steps|
    ensures |r| == k + 1 && r[0] == InitialLogLine
    ensures forall i :: 1 <= i <= k ==> r[i] == Steps[i - 1]
  {
    [InitialLogLine] + Steps[..k]
  }

  /** Each message appends exactly one line and keeps the earlier ones. */
  lemma LogGrowsByOne(k: nat)
    requires k < |Steps|
    ensures LogAfter(k + 1) == LogAfter(k) + [Steps[k]]
    ensures LogAfter(k) <= LogAfter(k + 1)
  {
    assert Steps[..k + 1] == Steps[..k] + [Steps[k]];
  }

  /** The complete log has twelve lines and ends with the completion message. */
  lemma FinalLog()
    ensures |LogAfter(|Steps|)| == 12
    ensures LogAfter(|Steps|)[11] == "Video generation completed!"
  {
  }

  /** The decimal form of an integer holds digits and a sign only. */
  lemma IntToStringPlain(n: int)
    ensures NoSpace(IntToString(n)) && NoUpper(IntToString(n))
  {
    var d := NatToString(if n >= 0 then n else -n);
    assert forall i :: 0 <= i < |d| ==> '0' <= d[i] <= '9';
    if n < 0 {
      assert IntToString(n) == "-" + d;
      assert forall i :: 1 <= i < |IntToString(n)| ==> IntToString(n)[i] == d[i - 1];
    }
  }

  /** Where the pieces of `prefix + a + sep + b + suffix` lie, and that it stays plain when they are. */
  lemma FivePieces(prefix: string, a: string, sep: string, b: string, suffix: string)
    requires NoSpace(prefix) && NoUpper(prefix) && NoSpace(a) && NoUpper(a)
    requires NoSpace(sep) && NoUpper(sep) && NoSpace(b) && NoUpper(b)
    requires NoSpace(suffix) && NoUpper(suffix)
    ensures var r := prefix + a + sep + b + suffix;
      && NoSpace(r) && NoUpper(r)
      && r[..|prefix|] == prefix
      && r[|prefix|..|prefix| + |a|] == a
      && r[|prefix| + |a| + |sep|..|r| - |suffix|] == b
      && r[|r| - |suffix|..] == suffix
  {
    var r := prefix + a + sep + b + suffix;
    PlainAppend(prefix, a);
    PlainAppend(prefix + a, sep);
    PlainAppend(prefix + a + sep, b);
    PlainAppend(prefix + a + sep + b, suffix);
    assert r == prefix + (a + (sep + (b + suffix)));
  }

  /** `/videos/<slug>_<stamp>.mp4`. */
  function UrlOf(slug: string, stamp: string): string {
    "/videos/" + slug + "_" + stamp + ".mp4"
  }

  /** Where the slug and the timestamp sit in the URL, and that it stays plain. */
  lemma UrlPieces(slug: string, stamp: string)
    requires NoSpace(slug) && NoUpper(slug) && NoSpace(stamp) && NoUpper(stamp)
    ensures var r := UrlOf(slug, stamp);
      && |r| == |slug| + |stamp| + 13
      && NoSpace(r) && NoUpper(r)
      && r[..8] == "/videos/" && r[8..8 + |slug|] == slug
      && r[9 + |slug|..|r| - 4] == stamp && r[|r| - 4..] == ".mp4"
  {
    FivePieces("/videos/", slug, "_", stamp, ".mp4");
  }

  /** The URL published on completion, for the clock reading `now`. */
  function VideoUrl(topic: string, now: int): (r: string)
    ensures |r| == |Slug(topic)| + |IntToString(now)| + 13
    ensures NoSpace(r) && NoUpper(r)
    ensures r[..8] == "/videos/" && r[8..8 + |Slug(topic)|] == Slug(topic)
    ensures r[|r| - 4..] == ".mp4"
    ensures now >= 0 ==> ParseDigits(r[9 + |Slug(topic)|..|r| - 4]) == now
  {
    IntToStringPlain(now);
    UrlPieces(Slug(topic), IntToString(now));
    UrlOf(Slug(topic), IntToString(now))
  }

  /** The name the browser saves the video under: `<slug>_educational_video.mp4`. */
  function DownloadName(topic: string): string {
    SlugFileName(topic, "_educational_video.mp4")
  }

  /** The published URL and the download name are built from the same slug. */
  lemma UrlAndNameShareSlug(topic: string, now: int)
    ensures VideoUrl(topic, now)[8..8 + |Slug(topic)|] == DownloadName(topic)[..|Slug(topic)|]
  {
  }

  /** The heading above the progress bar. */
  function StatusText(s: RenderStatus): string {
    match s
    case Preparing => "Preparing to render..."
    case Rendering => "Rendering video..."
    case Completed => "Video ready for download!"
    case Error => "Rendering failed"
    case Idle => "Ready to generate video"
  }

  /** Each status has its own heading. */
  lemma StatusTextDistinct(a: RenderStatus, b: RenderStatus)
    ensures StatusText(a) == StatusText(b) <==> a == b
  {
  }

  datatype Settings = Settings(quality: string, format: string, fps: int, resolution: string)

  const DefaultSettings: Settings := Settings("high", "mp4", 60, "1080p")

  /**
   * Idle before the start, rendering while the timer runs, completed after;
   * the log and the progress always match the number of messages written.
   * No state is `Error`, and `Preparing` never outlives `Start`.
   */
  ghost predicate RenderInvariant(status: RenderStatus, step: nat, ticking: bool, log: seq<string>, progress: real, url: string) {
    && step <= |Steps|
    && (ticking <==> status == Rendering)
    && status != Error && status != Preparing
    && (status == Idle ==> step == 0 && log == [] && progress == 0.0 && url == "")
    && (status != Idle ==> log == LogAfter(step) && progress == Progress(step))
    && (status == Rendering ==> url == "")
    && (status == Completed ==> step == |Steps| && url != "")
  }

  /** A tick that writes message `k` keeps the invariant of a running render. */
  lemma TickStepKeepsInvariant(k: nat)
    requires k < |Steps|
    ensures RenderInvariant(Rendering, k + 1, true, LogAfter(k) + [Steps[k]], TickProgress(k), "")
  {
    LogGrowsByOne(k);
  }

  /** The tick after the last message completes the render with any non-empty URL. */
  lemma FinishKeepsInvariant(url: string)
    requires url != ""
    ensures RenderInvariant(Completed, |Steps|, false, LogAfter(|Steps|), Progress(|Steps|), url)
  {
  }

  class VideoRenderer {
    const topic: string
    var renderStatus: RenderStatus
    var progress: real
    var renderLog: seq<string>
    var videoUrl: string
    var renderSettings: Settings
    /** The interval callback's counter of messages written. */
    var currentStep: nat
    /** Whether the interval is still scheduled. */
    var ticking: bool

    /** The renderer's invariant holds of its fields. */
    ghost predicate Valid()
      reads this
    {
      RenderInvariant(renderStatus, currentStep, ticking, renderLog, progress, videoUrl)
    }

    constructor (requirements: VideoRequirements)
      ensures Valid()
      ensures topic == requirements.topic && renderSettings == DefaultSettings
      ensures renderStatus == Idle && progress == 0.0 && renderLog == [] && videoUrl == ""
    {
      topic := requirements.topic;
      renderStatus := Idle;
      progress := 0.0;
      renderLog := [];
      videoUrl := "";
      renderSettings := DefaultSettings;
      currentStep := 0;
      ticking := false;
    }

    /**
     * `startRendering`, offered only while idle: reset the progress, write the
     * first log line, and start the timer.  `Preparing` is set and replaced
     * by `Rendering` within the same event, so only `Rendering` is observed.
     */
    method Start()
      requires Valid() && renderStatus == Idle
      modifies this
      ensures Valid()
      ensures renderStatus == Rendering && progress == 0.0 && renderLog == [InitialLogLine]
      ensures currentStep == 0 && ticking
      ensures videoUrl == old(videoUrl) && renderSettings == old(renderSettings)
    {
      renderStatus := Preparing;
      progress := 0.0;
      renderLog := [InitialLogLine];
      currentStep := 0;
      renderStatus := Rendering;
      ticking := true;
    }

    /** One run of the interval callback; `now` is the clock reading in milliseconds. */
    method Tick(now: int)
      requires Valid() && ticking
      modifies this
      ensures Valid()
      ensures renderSettings == old(renderSettings)
      ensures old(currentStep) < |Steps| ==>
        && renderLog == old(renderLog) + [Steps[old(currentStep)]]
        && progress == TickProgress(old(currentStep))
        && currentStep == old(currentStep) + 1
        && renderStatus == Rendering && ticking && videoUrl == old(videoUrl)
      ensures old(currentStep) == |Steps| ==>
        && renderStatus == Completed && !ticking
        && videoUrl == VideoUrl(topic, now)
        && renderLog == old(renderLog) && progress == old(progress) && currentStep == old(currentStep)
    {
      if currentStep < |Steps| {
        TickStepKeepsInvariant(currentStep);
        renderLog := renderLog + [Steps[currentStep]];
        progress := ((currentStep + 1) as real / |Steps| as real) * 100.0;
        currentStep := currentStep + 1;
      } else {
        FinishKeepsInvariant(VideoUrl(topic, now));
        ticking := false;
        renderStatus := Completed;
        videoUrl := VideoUrl(topic, now);
      }
    }

    /** `downloadVideo`, offered only when completed: the link's target and file name. */
    method DownloadVideo() returns (href: string, name: string)
      requires Valid() && renderStatus == Completed
      ensures href == videoUrl && href != ""
      ensures name == DownloadName(topic)
    {
      href := videoUrl;
      name := SlugFileName(topic, "_educational_video.mp4");
    }

    /** The heading for the current status. */
    function CurrentStatusText(): string
      reads this
    {
      StatusText(renderStatus)
    }

    method SetQuality(quality: string)
      requires Valid() && renderStatus == Idle
      modifies this
      ensures Valid()
      ensures renderSettings == old(renderSettings).(quality := quality)
      ensures renderStatus == old(renderStatus) && renderLog == old(renderLog) && progress == old(progress)
      ensures videoUrl == old(videoUrl) && currentStep == old(currentStep) && ticking == old(ticking)
    {
      renderSettings := renderSettings.(quality := quality);
    }

    method SetFormat(format: string)
      requires Valid() && renderStatus == Idle
      modifies this
      ensures Valid()
      ensures renderSettings == old(renderSettings).(format := format)
      ensures renderStatus == old(renderStatus) && renderLog == old(renderLog) && progress == old(progress)
      ensures videoUrl == old(videoUrl) && currentStep == old(currentStep) && ticking == old(ticking)
    {
      renderSettings := renderSettings.(format := format);
    }

    /** The frame-rate choice, already parsed from the option value. */
    method SetFps(fps: int)
      requires Valid() && renderStatus == Idle
      modifies this
      ensures Valid()
      ensures renderSettings == old(renderSettings).(fps := fps)
      ensures renderStatus == old(renderStatus) && renderLog == old(renderLog) && progress == old(progress)
      ensures videoUrl == old(videoUrl) && currentStep == old(currentStep) && ticking == old(ticking)
    {
      renderSettings := renderSettings.(fps := fps);
    }

    method SetResolution(resolution: string)
      requires Valid() && renderStatus == Idle
      modifies this
      ensures Valid()
      ensures renderSettings == old(renderSettings).(resolution := resolution)
      ensures renderStatus == old(renderStatus) && renderLog == old(renderLog) && progress == old(progress)
      ensures videoUrl == old(videoUrl) && currentStep == old(currentStep) && ticking == old(ticking)
    {
      renderSettings := renderSettings.(resolution := resolution);
    }
  }

  /**
   * In every state the class can reach, progress lies within [0, 100], the
   * log has one line more than there are messages written, and the status
   * text is never the failure text.
   */
  lemma ReachableStateFacts(v: VideoRenderer)
    requires v.Valid()
    ensures 0.0 <= v.progress <= 100.0
    ensures v.renderStatus != Idle ==> |v.renderLog| == v.currentStep + 1
    ensures v.renderStatus == Completed ==> v.progress == 100.0 && v.renderLog[11] == "Video generation completed!"
    ensures v.CurrentStatusText() != "Rendering failed"
  {
  }
}
