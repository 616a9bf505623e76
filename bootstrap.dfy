/**
 * `createAudioContext`: obtain an audio context, working around the iOS defect
 * where a new context silently runs at the wrong sample rate. The repair is a
 * single branch: close the first context and build exactly one more, with no
 * check of the replacement.
 */
module ContextBootstrap {
  import opened Wrappers
  import opened AudioPlatform

  /** The two sample rates the library accepts as the desired rate. */
  type SampleRate = r: nat | r == 44100 || r == 48000 witness 44100

  /** The desired rate when the caller gives none (as `initialize` does). */
  const DefaultSampleRate: SampleRate := 44100

  /**
   * The environment, read once when the library loads: whether a `window`
   * object exists, and whether the platform string names an iPad or iPhone.
   */
  datatype Host = Host(isBrowser: bool, iosPlatform: bool) {
    /** The library's `IS_IOS` flag: iOS is only ever detected inside a browser. */
    predicate IsIos() {
      isBrowser && iosPlatform
    }
  }

  /**
   * What successive calls of `new AudioContext(options)` yield: call `i`
   * (counting from 0) gives `next(i)`. The platform decides each context,
   * including its sample rate.
   */
  datatype ContextFactory = ContextFactory(next: nat -> Context)

  /** The branch `createAudioContext` took. */
  datatype Bootstrap =
    | NoBrowser
    | Kept(ctx: Context)
    | Replaced(closed: Context, ctx: Context)
  {
    /** The context handed back to the caller; `None` is `undefined`. */
    function Returned(): Option<Context> {
      match this
      case NoBrowser => None
      case Kept(c) => Some(c)
      case Replaced(_, c) => Some(c)
    }

    /** The contexts constructed, in order. */
    function Constructed(): seq<Context> {
      match this
      case NoBrowser => []
      case Kept(c) => [c]
      case Replaced(c0, c1) => [c0, c1]
    }
  }

  /** The condition under which the first context is thrown away. */
  predicate NeedsRepair(host: Host, desired: SampleRate, first: Context) {
    host.IsIos() && first.sampleRate != desired
  }

  /**
   * The contexts built are the factory's first ones, in order, and there are
   * at most two of them; the one returned is the last built.
   */
  function CreateAudioContext(host: Host, desired: SampleRate, factory: ContextFactory): (r: Bootstrap)
    ensures r.NoBrowser? <==> !host.isBrowser
    ensures r.Replaced? <==> host.isBrowser && NeedsRepair(host, desired, factory.next(0))
    ensures |r.Constructed()| <= 2
    ensures forall i :: 0 <= i < |r.Constructed()| ==> r.Constructed()[i] == factory.next(i)
    ensures r.Returned().Some? ==> r.Returned().value == r.Constructed()[|r.Constructed()| - 1]
    ensures r.Replaced? ==> r.closed == factory.next(0)
  {
    var first := factory.next(0);
    if !host.isBrowser then NoBrowser
    else if NeedsRepair(host, desired, first) then Replaced(first, factory.next(1))
    else Kept(first)
  }

  /**
   * The repair is one-shot: whatever sample rate the replacement has, it is
   * returned as it is, with no second repair.
   */
  lemma RepairIsOneShot(host: Host, desired: SampleRate, factory: ContextFactory)
    requires host.IsIos() && factory.next(0).sampleRate != desired
    ensures CreateAudioContext(host, desired, factory).Returned() == Some(factory.next(1))
    ensures |CreateAudioContext(host, desired, factory).Constructed()| == 2
  {
  }

  /** Off iOS the first context is always kept, whatever its sample rate. */
  lemma NonIosKeepsFirst(host: Host, desired: SampleRate, factory: ContextFactory)
    requires host.isBrowser && !host.IsIos()
    ensures CreateAudioContext(host, desired, factory) == Kept(factory.next(0))
  {
  }

  /** On iOS a context that is kept already runs at the desired rate. */
  lemma KeptOnIosHasDesiredRate(host: Host, desired: SampleRate, factory: ContextFactory)
    requires host.IsIos()
    ensures CreateAudioContext(host, desired, factory).Kept? ==> factory.next(0).sampleRate == desired
  {
  }
}
