/**
 * The live media pipeline of src/ts/media/Camera.ts: the constraints and
 * codec configurations `open` derives from a `CameraInit`, the track-reader
 * filter in front of the encoder, and the bounded queue of decoded frames.
 * The browser media objects themselves (stream, track reader, encoder,
 * decoder, bitmaps) are not modelled; their callbacks are environment steps.
 */
module Camera {
  import opened Wrappers

  const DefaultInputVideoWidth: real := 640.0
  const DefaultInputVideoHeight: real := 480.0
  const DefaultInputVideoFrameRate: real := 30.0
  /** Size the decoder and the bitmap request fall back to when no output size is configured. */
  const DefaultOutputSize: real := 512.0

  /** The queue bound. It is compared with the number of queued frames, not with bytes. */
  const MaxDecodedFrameQueueSize: nat := 100 * 1024 * 1024

  /** `input` / `output` of `CameraInit.video`: every field may be left out. */
  datatype VideoFormat = VideoFormat(width: Option<real>, height: Option<real>, frameRate: Option<real>)

  datatype CameraInit = CameraInit(videoAllow: bool, input: Option<VideoFormat>, output: Option<VideoFormat>, audioAllow: bool)

  /** The `video` member of the media constraints: `true`, or explicit dimensions. */
  datatype VideoConstraint = AnyVideo | VideoOf(width: Option<real>, height: Option<real>, frameRate: Option<real>)

  /** Media constraints; a `None` member is absent from the object. */
  datatype Constraints = Constraints(video: Option<VideoConstraint>, audio: Option<bool>)

  /** A `configure` argument of the encoder or the decoder (the codec is always `vp8`). */
  datatype CodecConfig = CodecConfig(codec: string, width: real, height: real, frameRate: Option<real>)

  /** An opaque video frame; only its coded and display sizes matter here. */
  datatype VideoFrame = VideoFrame(id: nat, codedWidth: int, codedHeight: int, displayWidth: int, displayHeight: int)

  /** The resize request `consumeDecodedFrameAsImageBitmap` makes of the frame it took. */
  datatype BitmapRequest = BitmapRequest(frame: VideoFrame, resizeWidth: real, resizeHeight: real)

  /** The `constrains` object `open` builds. */
  function ConstraintsFor(init: CameraInit): (c: Constraints)
    ensures init.videoAllow ==> c.video == Some(AnyVideo)
    ensures !init.videoAllow && init.input.Some? ==>
      c.video == Some(VideoOf(init.input.value.width, init.input.value.height, init.input.value.frameRate))
    ensures !init.videoAllow && init.input.None? ==> c.video.None?
    ensures c.audio == (if init.audioAllow then Some(true) else None)
  {
    var video :=
      if init.videoAllow then Some(AnyVideo)
      else if init.input.Some? then Some(VideoOf(init.input.value.width, init.input.value.height, init.input.value.frameRate))
      else None;
    Constraints(video, if init.audioAllow then Some(true) else None)
  }

  /** Video is requested exactly when it is allowed or an input format is given, and audio exactly when allowed. */
  lemma ConstraintsRequestWhatIsConfigured(init: CameraInit)
    ensures ConstraintsFor(init).video.Some? <==> init.videoAllow || init.input.Some?
    ensures ConstraintsFor(init).audio.Some? <==> init.audioAllow
    ensures ConstraintsFor(init).video == Some(AnyVideo) <==> init.videoAllow
  {
  }

  /** `output?.width ?? 512`. */
  function OutputWidth(init: CameraInit): (w: real)
    ensures init.output.None? || init.output.value.width.None? ==> w == DefaultOutputSize
    ensures init.output.Some? && init.output.value.width.Some? ==> w == init.output.value.width.value
  {
    if init.output.Some? then init.output.value.width.GetOr(DefaultOutputSize) else DefaultOutputSize
  }

  /** `output?.height ?? 512`. */
  function OutputHeight(init: CameraInit): (h: real)
    ensures init.output.None? || init.output.value.height.None? ==> h == DefaultOutputSize
    ensures init.output.Some? && init.output.value.height.Some? ==> h == init.output.value.height.value
  {
    if init.output.Some? then init.output.value.height.GetOr(DefaultOutputSize) else DefaultOutputSize
  }

  /** The decoder's configuration: `vp8` at the output size. */
  function DecoderConfig(init: CameraInit): (c: CodecConfig)
    ensures c.codec == "vp8" && c.frameRate.None?
    ensures c.width == OutputWidth(init) && c.height == OutputHeight(init)
  {
    CodecConfig("vp8", OutputWidth(init), OutputHeight(init), None)
  }

  /** The encoder's configuration: `vp8` at the input format, falling back to 640x480 at 30 fps field by field. */
  function EncoderConfig(init: CameraInit): (c: CodecConfig)
    ensures c.codec == "vp8" && c.frameRate.Some?
    ensures init.input.None? ==>
      c.width == DefaultInputVideoWidth && c.height == DefaultInputVideoHeight && c.frameRate == Some(DefaultInputVideoFrameRate)
    ensures init.input.Some? ==>
      && c.width == init.input.value.width.GetOr(DefaultInputVideoWidth)
      && c.height == init.input.value.height.GetOr(DefaultInputVideoHeight)
      && c.frameRate == Some(init.input.value.frameRate.GetOr(DefaultInputVideoFrameRate))
  {
    var input := init.input.GetOr(VideoFormat(None, None, None));
    CodecConfig("vp8", input.width.GetOr(DefaultInputVideoWidth), input.height.GetOr(DefaultInputVideoHeight),
                Some(input.frameRate.GetOr(DefaultInputVideoFrameRate)))
  }

  /** The bitmap request for a frame taken off the queue asks for the size the decoder was configured with. */
  lemma BitmapSizeIsDecoderSize(init: CameraInit, frame: VideoFrame)
    ensures var r := BitmapRequestFor(init, frame);
      r.resizeWidth == DecoderConfig(init).width && r.resizeHeight == DecoderConfig(init).height
  {
  }

  function BitmapRequestFor(init: CameraInit, frame: VideoFrame): BitmapRequest {
    BitmapRequest(frame, OutputWidth(init), OutputHeight(init))
  }

  /** The track-reader filter: only frames whose coded size is their display size are encoded. */
  predicate Encodable(frame: VideoFrame) {
    frame.codedWidth == frame.displayWidth && frame.codedHeight == frame.displayHeight
  }

  // ---------------------------------------------------------------------
  // The decoded-frame queue, as values

  /** The decoder's `output` callback on a queue: drop the head when full, then append. */
  function Enqueue(q: seq<VideoFrame>, frame: VideoFrame): (r: seq<VideoFrame>)
    requires |q| <= MaxDecodedFrameQueueSize
    ensures |r| <= MaxDecodedFrameQueueSize && |r| > 0 && r[|r| - 1] == frame
    ensures |r| == if |q| == MaxDecodedFrameQueueSize then |q| else |q| + 1
  {
    (if |q| == MaxDecodedFrameQueueSize then q[1..] else q) + [frame]
  }

  /** What `Enqueue` keeps is the newest part of the queue followed by the new frame. */
  lemma EnqueueKeepsNewest(q: seq<VideoFrame>, frame: VideoFrame)
    requires |q| <= MaxDecodedFrameQueueSize
    ensures Enqueue(q, frame) == (q + [frame])[|q| + 1 - |Enqueue(q, frame)|..]
  {
    if |q| == MaxDecodedFrameQueueSize {
      assert (q + [frame])[1..] == q[1..] + [frame];
    } else {
      assert (q + [frame])[0..] == q + [frame];
    }
  }

  /** The queue after a run of decoder outputs with nothing consumed. */
  function EnqueueAll(q: seq<VideoFrame>, frames: seq<VideoFrame>): (r: seq<VideoFrame>)
    requires |q| <= MaxDecodedFrameQueueSize
    ensures |r| <= MaxDecodedFrameQueueSize
    decreases |frames|
  {
    if frames == [] then q
    else Enqueue(EnqueueAll(q, frames[..|frames| - 1]), frames[|frames| - 1])
  }

  /**
   * First in, first out, with drop-oldest: after any run of arrivals the
   * queue holds the most recent `min(|q| + |frames|, bound)` frames of
   * `q + frames`, in arrival order.
   */
  lemma {:induction false} EnqueueAllKeepsNewest(q: seq<VideoFrame>, frames: seq<VideoFrame>)
    requires |q| <= MaxDecodedFrameQueueSize
    ensures var r := EnqueueAll(q, frames);
      && |r| == (if |q| + |frames| <= MaxDecodedFrameQueueSize then |q| + |frames| else MaxDecodedFrameQueueSize)
      && r == (q + frames)[|q| + |frames| - |r|..]
    decreases |frames|
  {
    if frames == [] {
      assert q + frames == q;
    } else {
      var init := frames[..|frames| - 1];
      var last := frames[|frames| - 1];
      EnqueueAllKeepsNewest(q, init);
      assert q + frames == (q + init) + [last] by {
        assert init + [last] == frames;
      }
      EnqueueOntoSuffix(q + init, EnqueueAll(q, init), last);
    }
  }

  /** Enqueueing onto the newest part of `s` keeps the newest part of `s + [frame]`. */
  lemma EnqueueOntoSuffix(s: seq<VideoFrame>, front: seq<VideoFrame>, frame: VideoFrame)
    requires |front| <= MaxDecodedFrameQueueSize && |front| <= |s| && front == s[|s| - |front|..]
    ensures Enqueue(front, frame) == (s + [frame])[|s| + 1 - |Enqueue(front, frame)|..]
  {
    var k := |s| - |front|;
    if |front| == MaxDecodedFrameQueueSize {
      assert front[1..] == s[k + 1..];
      SuffixOfAppend(s, k + 1, frame);
    } else {
      SuffixOfAppend(s, k, frame);
    }
  }

  lemma SuffixOfAppend(s: seq<VideoFrame>, k: nat, frame: VideoFrame)
    requires k <= |s|
    ensures (s + [frame])[k..] == s[k..] + [frame]
  {
  }

  /** Without overflow nothing is dropped: the queue is the old queue followed by every arrival. */
  lemma EnqueueAllWithoutOverflow(q: seq<VideoFrame>, frames: seq<VideoFrame>)
    requires |q| + |frames| <= MaxDecodedFrameQueueSize
    ensures EnqueueAll(q, frames) == q + frames
  {
    EnqueueAllKeepsNewest(q, frames);
  }

  /** `shift` on the queue: the oldest frame, and the rest; nothing on an empty queue. */
  function Dequeue(q: seq<VideoFrame>): (r: (Option<VideoFrame>, seq<VideoFrame>))
    ensures q == [] ==> r == (None, q)
    ensures q != [] ==> r.0 == Some(q[0]) && [q[0]] + r.1 == q
  {
    if q == [] then (None, q) else (Some(q[0]), q[1..])
  }

  /** A frame appended to a queue that does not overflow comes out after everything already queued. */
  lemma DequeueAfterEnqueue(q: seq<VideoFrame>, frame: VideoFrame)
    requires |q| < MaxDecodedFrameQueueSize
    ensures q != [] ==> Dequeue(Enqueue(q, frame)) == (Some(q[0]), Enqueue(q[1..], frame))
    ensures q == [] ==> Dequeue(Enqueue(q, frame)) == (Some(frame), [])
  {
    if q != [] {
      assert (q + [frame])[1..] == q[1..] + [frame];
    }
  }

  // ---------------------------------------------------------------------
  // The camera object

  /** Every encoded frame passed the track-reader filter, and every queued frame went through the encoder. */
  ghost predicate QueueFromEncoder(queue: seq<VideoFrame>, encoded: seq<VideoFrame>) {
    && (forall i :: 0 <= i < |encoded| ==> Encodable(encoded[i]))
    && (forall i :: 0 <= i < |queue| ==> queue[i] in encoded)
  }

  class Camera {
    const cameraInit: CameraInit
    var decodedFrameQueue: seq<VideoFrame>
    /** The constraints passed to `getUserMedia`, once `open` ran. */
    var requestedConstraints: Option<Constraints>
    var decoderConfig: Option<CodecConfig>
    var encoderConfig: Option<CodecConfig>
    /** Every frame handed to the encoder, in order. */
    var encoded: seq<VideoFrame>

    ghost predicate Valid()
      reads this
    {
      |decodedFrameQueue| <= MaxDecodedFrameQueueSize && QueueFromEncoder(decodedFrameQueue, encoded)
    }

    constructor (init: CameraInit)
      ensures cameraInit == init && Valid()
      ensures decodedFrameQueue == [] && encoded == []
      ensures requestedConstraints.None? && decoderConfig.None? && encoderConfig.None?
    {
      cameraInit := init;
      decodedFrameQueue := [];
      requestedConstraints := None;
      decoderConfig := None;
      encoderConfig := None;
      encoded := [];
    }

    /** `consumeDecodedFrame`. */
    method ConsumeDecodedFrame() returns (frame: Option<VideoFrame>)
      requires Valid()
      modifies this`decodedFrameQueue
      ensures Valid()
      ensures (frame, decodedFrameQueue) == Dequeue(old(decodedFrameQueue))
    {
      if decodedFrameQueue == [] {
        return None;
      }
      frame := Some(decodedFrameQueue[0]);
      decodedFrameQueue := decodedFrameQueue[1..];
    }

    /** `consumeDecodedFrameAsImageBitmap`, up to the bitmap request it then awaits. */
    method ConsumeDecodedFrameAsImageBitmap() returns (request: Option<BitmapRequest>)
      requires Valid()
      modifies this`decodedFrameQueue
      ensures Valid()
      ensures decodedFrameQueue == Dequeue(old(decodedFrameQueue)).1
      ensures old(decodedFrameQueue) == [] ==> request.None?
      ensures old(decodedFrameQueue) != [] ==> request == Some(BitmapRequestFor(cameraInit, old(decodedFrameQueue)[0]))
    {
      var frame := ConsumeDecodedFrame();
      if frame.None? {
        return None;
      }
      request := Some(BitmapRequest(frame.value, OutputWidth(cameraInit), OutputHeight(cameraInit)));
    }

    /** `open`, up to starting the track reader: what it asks for and how it configures the codecs. */
    method Open()
      modifies this`requestedConstraints, this`decoderConfig, this`encoderConfig
      ensures requestedConstraints == Some(ConstraintsFor(cameraInit))
      ensures decoderConfig == Some(DecoderConfig(cameraInit))
      ensures encoderConfig == Some(EncoderConfig(cameraInit))
    {
      requestedConstraints := Some(ConstraintsFor(cameraInit));
      decoderConfig := Some(DecoderConfig(cameraInit));
      encoderConfig := Some(EncoderConfig(cameraInit));
    }

    /** The track reader's callback: a frame is encoded only if it passes the filter. */
    method OnTrackFrame(frame: VideoFrame)
      requires Valid()
      modifies this`encoded
      ensures Valid()
      ensures encoded == old(encoded) + (if Encodable(frame) then [frame] else [])
    {
      if frame.codedWidth != frame.displayWidth || frame.codedHeight != frame.displayHeight {
        return;
      }
      encoded := encoded + [frame];
    }

    /**
     * The decoder's `output` callback. The codec is a round trip, so what
     * the decoder hands back is one of the frames given to the encoder.
     */
    method OnDecoderOutput(frame: VideoFrame)
      requires Valid() && frame in encoded
      modifies this`decodedFrameQueue
      ensures Valid()
      ensures decodedFrameQueue == Enqueue(old(decodedFrameQueue), frame)
    {
      if |decodedFrameQueue| == MaxDecodedFrameQueueSize {
        decodedFrameQueue := decodedFrameQueue[1..];
      }
      decodedFrameQueue := decodedFrameQueue + [frame];
    }
  }

  /** A frame the filter rejects never reaches the queue, whatever the camera's history. */
  lemma RejectedFrameNeverQueued(c: Camera, frame: VideoFrame)
    requires c.Valid() && !Encodable(frame)
    ensures frame !in c.decodedFrameQueue
  {
  }
}
