/**
 * The platform's audio capability, kept opaque: decoded buffers and context
 * identities are abstract; a context exposes only its sample rate, and a
 * buffer source node exposes the two properties the library sets on it.
 */
module AudioPlatform {
  import opened Wrappers

  /** A decoded, ready-to-play audio buffer (`AudioBuffer`). */
  type AudioBuffer

  /** The identity of one platform audio context. */
  type ContextHandle

  type Url = string

  /** An audio context as the library observes it: an identity and its sample rate in Hz. */
  datatype Context = Context(handle: ContextHandle, sampleRate: nat)

  /** An `AudioBufferSourceNode`: created by a context, then given a buffer and a loop flag. */
  class BufferSource {
    const context: Context
    var buffer: Option<AudioBuffer>
    var loop: bool

    /** `ctx.createBufferSource()`: a fresh node has no buffer and does not loop. */
    constructor (context: Context)
      ensures this.context == context
      ensures buffer == None && !loop
    {
      this.context := context;
      buffer := None;
      loop := false;
    }
  }

  /**
   * `createBufferSource(ctx, audioBuffer, loop)`: a fresh node of `ctx` bound to
   * `audioBuffer` that loops exactly when `loop` is set. Connecting it to the
   * context's destination is a platform side effect and is not modelled.
   */
  method CreateBufferSource(ctx: Context, audioBuffer: AudioBuffer, loop: bool := false) returns (src: BufferSource)
    ensures fresh(src)
    ensures src.context == ctx
    ensures src.buffer == Some(audioBuffer)
    ensures src.loop == loop
  {
    src := new BufferSource(ctx);
    src.buffer := Some(audioBuffer);
    if loop {
      src.loop := true;
    }
  }
}
