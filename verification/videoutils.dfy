/** Video helpers of frontend/lib/videoUtils.ts: the video-extension test, the
    schedule of seek times, and the frame-by-frame capture of
    `extractFramesFromVideo`, whose DOM events (`loadedmetadata`, `seeked`,
    `error`) become explicit inputs. */
module VideoUtils {
  import opened Wrappers
  import opened Strings

  /** The suffixes `isVideoUrl` accepts, compared case-insensitively. */
  const VideoExtensions: seq<string> := [".mp4", ".webm", ".mov", ".avi"]

  /** `isVideoUrl(url)`: `/\.(mp4|webm|mov|avi)$/i.test(url)`. */
  predicate IsVideoUrl(url: string) {
    exists e :: e in VideoExtensions && EndsWithIgnoreCase(url, e)
  }

  function IsVideoUrlCheck(url: string): (r: bool)
    ensures r <==> IsVideoUrl(url)
  {
    EndsWithIgnoreCase(url, ".mp4") || EndsWithIgnoreCase(url, ".webm") ||
    EndsWithIgnoreCase(url, ".mov") || EndsWithIgnoreCase(url, ".avi")
  }

  lemma LowerAppend(a: string, b: string)
    ensures Lower(a + b) == Lower(a) + Lower(b)
  {
    assert forall i :: 0 <= i < |a + b| ==> Lower(a + b)[i] == (Lower(a) + Lower(b))[i];
  }

  /** Any name followed by one of the four extensions, in any mix of upper
      and lower case, is a video URL. */
  lemma VideoSuffixAccepted(name: string, ext: string)
    requires Lower(ext) in VideoExtensions
    ensures IsVideoUrl(name + ext)
  {
    LowerAppend(name, ext);
    var l := Lower(name + ext);
    assert l[|l| - |ext|..] == Lower(ext);
    assert EndsWithIgnoreCase(name + ext, Lower(ext));
  }

  /** A URL whose lower-cased form ends in none of the four extensions is not
      a video URL; in particular an image name such as `ad.jpg` is refused. */
  lemma ImageNameRefused()
    ensures !IsVideoUrl("ad.jpg")
  {
    assert Lower("ad.jpg") == "ad.jpg";
  }

  /** The seek times for `numFrames` frames of a video of length `duration`:
      the quarter and three-quarter marks for two frames, otherwise `n`
      evenly spaced times strictly between the ends. */
  function FrameTimes(numFrames: nat, duration: real): (times: seq<real>)
    ensures |times| == numFrames
  {
    if numFrames == 2 then [duration * 0.25, duration * 0.75]
    else seq(numFrames, i requires 0 <= i < numFrames => (i + 1) as real * duration / (numFrames + 1) as real)
  }

  /** Entry `i` of the evenly spaced schedule is `i + 1` steps of
      `duration / (numFrames + 1)`. */
  lemma EvenTime(numFrames: nat, duration: real, i: nat)
    requires numFrames != 2 && i < numFrames
    ensures FrameTimes(numFrames, duration)[i] == (i + 1) as real * (duration / (numFrames + 1) as real)
  {
  }

  lemma MulPositive(a: real, b: real)
    requires a > 0.0 && b > 0.0
    ensures a * b > 0.0
  {
  }

  lemma EvenTimesOrdered(numFrames: nat, duration: real, i: nat, j: nat)
    requires numFrames != 2 && i < j < numFrames && duration > 0.0
    ensures 0.0 < FrameTimes(numFrames, duration)[i] < FrameTimes(numFrames, duration)[j] < duration
  {
    var step := duration / (numFrames + 1) as real;
    EvenTime(numFrames, duration, i);
    EvenTime(numFrames, duration, j);
    var ti, tj := FrameTimes(numFrames, duration)[i], FrameTimes(numFrames, duration)[j];
    assert step * (numFrames + 1) as real == duration;
    MulPositive((i + 1) as real, step);
    assert tj - ti == (j - i) as real * step;
    MulPositive((j - i) as real, step);
    assert duration - tj == (numFrames - j) as real * step;
    MulPositive((numFrames - j) as real, step);
  }

  /** The schedule has `numFrames` entries; with two frames they are exactly
      0.25 and 0.75 of the duration, otherwise entry `i` is
      `(i+1) * duration / (numFrames+1)`. For a positive duration the times
      increase strictly and lie strictly inside `(0, duration)`. */
  lemma FrameTimesSchedule(numFrames: nat, duration: real)
    ensures |FrameTimes(numFrames, duration)| == numFrames
    ensures numFrames == 2 ==> FrameTimes(numFrames, duration) == [0.25 * duration, 0.75 * duration]
    ensures numFrames != 2 ==> forall i :: 0 <= i < numFrames ==>
              FrameTimes(numFrames, duration)[i] == (i + 1) as real * duration / (numFrames + 1) as real
    ensures duration > 0.0 ==> forall i, j :: 0 <= i < j < numFrames ==>
              FrameTimes(numFrames, duration)[i] < FrameTimes(numFrames, duration)[j]
    ensures duration > 0.0 ==> forall i :: 0 <= i < numFrames ==>
              0.0 < FrameTimes(numFrames, duration)[i] < duration
  {
    var ts := FrameTimes(numFrames, duration);
    if duration > 0.0 && numFrames != 2 {
      forall i, j | 0 <= i < j < numFrames
        ensures ts[i] < ts[j]
      {
        EvenTimesOrdered(numFrames, duration, i, j);
      }
      forall i | 0 <= i < numFrames
        ensures 0.0 < ts[i] < duration
      {
        if i + 1 < numFrames {
          EvenTimesOrdered(numFrames, duration, i, i + 1);
        } else if i > 0 {
          EvenTimesOrdered(numFrames, duration, 0, i);
        } else {
          assert numFrames == 1;
          assert ts[0] == duration / 2.0;
        }
      }
    }
  }

  /** Where the frames are read from: a URL, or a local file that gets a
      temporary object URL. */
  datatype VideoSource = UrlSource(url: string) | FileSource(name: string)

  /** What loading the video produced: the `error` event, or the
      `loadedmetadata` event with the duration. */
  datatype Load = LoadFailed | Loaded(duration: real)

  /** What one `seeked` handler found: no 2D context, or the canvas drawn and
      encoded as the data URL `toDataURL` returned. */
  datatype Capture = NoContext | Drawn(dataUrl: string)

  datatype FrameError = LoadError | ContextError | EncodeError

  /** The frame text pushed for a capture: `dataUrl.split(',')[1]`. */
  predicate Encodable(c: Capture) {
    c.Drawn? && |Split(c.dataUrl, ',')| > 1
  }

  function FramePayload(c: Capture): string
    requires Encodable(c)
  {
    Split(c.dataUrl, ',')[1]
  }

  /** `extractFramesFromVideo(source, numFrames)`: on metadata, seek to each
      scheduled time in turn and push the captured frame; the object URL of a
      file source is revoked once all frames are in. Returns the frames or
      the rejection, the times it seeked to, and whether it revoked the
      object URL. */
  method ExtractFrames(source: VideoSource, numFrames: nat, load: Load, captures: seq<Capture>)
    returns (result: Result<seq<string>, FrameError>, seeks: seq<real>, revoked: bool)
    requires |captures| >= numFrames
    ensures load.LoadFailed? ==> result == Err(LoadError) && seeks == [] && !revoked
    ensures load.Loaded? ==> (result.Ok? <==> forall k :: 0 <= k < numFrames ==> Encodable(captures[k]))
    ensures result.Ok? ==> load.Loaded? && seeks == FrameTimes(numFrames, load.duration)
    ensures result.Ok? ==> |result.value| == numFrames
    ensures result.Ok? ==> forall k :: 0 <= k < numFrames ==>
              Encodable(captures[k]) && result.value[k] == FramePayload(captures[k])
    ensures load.Loaded? && result.Err? ==>
              exists k :: 0 <= k < numFrames && !Encodable(captures[k]) &&
                (forall j :: 0 <= j < k ==> Encodable(captures[j])) &&
                seeks == FrameTimes(numFrames, load.duration)[..k + 1] &&
                result.error == (if captures[k].NoContext? then ContextError else EncodeError)
    ensures revoked <==> result.Ok? && source.FileSource?
  {
    seeks, revoked := [], false;
    if load.LoadFailed? {
      return Err(LoadError), seeks, revoked;
    }
    var times := FrameTimes(numFrames, load.duration);
    assert |times| == numFrames;
    var frames: seq<string> := [];
    var currentFrame := 0;
    while currentFrame < numFrames
      invariant currentFrame <= numFrames
      invariant |frames| == currentFrame && seeks == times[..currentFrame]
      invariant forall k :: 0 <= k < currentFrame ==> Encodable(captures[k]) && frames[k] == FramePayload(captures[k])
    {
      seeks := seeks + [times[currentFrame]];
      var c := captures[currentFrame];
      assert seeks == times[..currentFrame + 1];
      if c.NoContext? {
        result := Err(ContextError);
        assert !Encodable(captures[currentFrame]) && result.error == (if captures[currentFrame].NoContext? then ContextError else EncodeError);
        return;
      }
      var parts := Split(c.dataUrl, ',');
      if |parts| < 2 {
        result := Err(EncodeError);
        assert !Encodable(captures[currentFrame]) && result.error == (if captures[currentFrame].NoContext? then ContextError else EncodeError);
        return;
      }
      frames := frames + [parts[1]];
      currentFrame := currentFrame + 1;
    }
    revoked := source.FileSource?;
    result := Ok(frames);
  }
}
