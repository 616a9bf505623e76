/**
 * The `Borilla` session: a shared handle counter, the decoded-buffer table
 * and the registry of playing sources, kept by `initialize`, `play` and the
 * end-of-playback callback that `play` installs.
 */
module Borilla {
  import opened Wrappers
  import opened Decimal
  import opened AudioPlatform
  import opened ContextBootstrap
  import opened AssetLoader
  import opened Options

  /**
   * `generateSourceId`: a counter closed over once when the library loads, so
   * every session mints its handles from the same object.
   */
  class SourceIdGenerator {
    var counter: nat

    constructor ()
      ensures counter == 0
    {
      counter := 0;
    }

    /** `h` reads as a decimal counter value below the current one. */
    predicate Issued(h: string)
      reads this
    {
      IsDigits(h) && ParseDecimal(h) < counter
    }

    /**
     * Hands out the decimal string of the current counter value and advances
     * the counter by one; the handle is new, and from now on it counts as issued.
     */
    method GenerateSourceId() returns (id: string)
      modifies this
      ensures id == DecimalString(old(counter))
      ensures counter == old(counter) + 1
      ensures !old(Issued(id)) && Issued(id)
    {
      id := DecimalString(counter);
      ParseDecimalString(counter);
      counter := counter + 1;
    }
  }

  /** `play` throws 'Undefined audio buffer': the name has no decoded buffer, or `initialize` has not set the table. */
  datatype PlayError = UndefinedAudioBuffer

  datatype InitError = AssetLoadFailure

  class Borilla {
    const ids: SourceIdGenerator
    const host: Host
    const isIos: bool
    const audioUrls: AudioUrls
    const fetchLimit: FetchLimit
    var ctx: Option<Context>
    var audioBuffers: Option<map<string, AudioBuffer>>
    var activeSources: map<string, BufferSource>

    /**
     * Every registered handle came from the shared counter; a table, once
     * set, holds exactly the configured names; a context exists only in a
     * browser, and a table only once a context does.
     */
    ghost predicate Valid()
      reads this, ids
    {
      && (forall h :: h in activeSources ==> ids.Issued(h))
      && (audioBuffers.Some? ==> audioBuffers.value.Keys == Names(audioUrls))
      && (ctx.Some? ==> host.isBrowser)
      && (audioBuffers.Some? ==> ctx.Some?)
    }

    /** `play(name)` finds a decoded buffer for `name`. */
    predicate HasBuffer(name: string)
      reads this
    {
      audioBuffers.Some? && name in audioBuffers.value
    }

    /**
     * `new Borilla(opts)`: the merged options, no context, no table, nothing
     * playing. `host` is the environment the library detected once when it
     * loaded, whose `IS_IOS` flag the defaults carry; `ids` is the library's one
     * handle counter; `opts` defaults to no options.
     */
    constructor (host: Host, ids: SourceIdGenerator, opts: BorillaOptions := NoOptions)
      ensures this.ids == ids && this.host == host
      ensures Config(isIos, audioUrls, fetchLimit) == MergeRight(DefaultOptions(host.IsIos()), opts)
      ensures ctx == None && audioBuffers == None && activeSources == map[]
      ensures Valid()
    {
      var options := MergeRight(DefaultOptions(host.IsIos()), opts);
      this.ids := ids;
      this.host := host;
      isIos := options.isIos;
      audioUrls := options.audioUrls;
      fetchLimit := options.fetchLimit;
      ctx := None;
      audioBuffers := None;
      activeSources := map[];
    }

    /**
     * `initialize()`: set up a context with the default desired rate, then,
     * if one exists, build the table. The repair decision reads the detected
     * `host`, not this session's `isIos` option; `factory` is what the
     * platform's context constructor yields; `decode` is fetch-and-decode.
     */
    method Initialize(factory: ContextFactory, decode: Url -> Option<AudioBuffer>) returns (r: Outcome<InitError>)
      requires Valid()
      modifies this`ctx, this`audioBuffers
      ensures Valid()
      ensures ctx == CreateAudioContext(host, DefaultSampleRate, factory).Returned()
      ensures ctx.None? <==> !host.isBrowser
      ensures ctx.None? ==> r.Pass? && audioBuffers == None
      ensures ctx.Some? ==> (r.Pass? <==> AllDecodable(audioUrls, decode))
      ensures r.Fail? ==> audioBuffers == old(audioBuffers)
      ensures ctx.Some? && r.Pass? ==>
        && audioBuffers.Some?
        && audioBuffers.value.Keys == Names(audioUrls)
        && forall i :: 0 <= i < |audioUrls| ==> audioBuffers.value[audioUrls[i].name] == decode(audioUrls[i].url).value
    {
      ctx := CreateAudioContext(host, DefaultSampleRate, factory).Returned();
      if ctx.None? {
        return Pass;
      }
      var table := BuildTable(audioUrls, decode);
      if table.None? {
        return Fail(AssetLoadFailure);
      }
      audioBuffers := table;
      r := Pass;
    }

    /**
     * `play(name, loop)`: reject an unknown name before anything happens;
     * otherwise start a fresh source for the name's buffer under a new handle
     * and register it, leaving every other entry as it was.
     */
    method Play(name: string, loop: bool := false) returns (r: Result<string, PlayError>)
      requires Valid()
      modifies this`activeSources, ids
      ensures Valid()
      ensures r.Failure? <==> !HasBuffer(name)
      ensures r.Failure? ==> activeSources == old(activeSources) && ids.counter == old(ids.counter)
      ensures r.Success? ==>
        && r.value == DecimalString(old(ids.counter))
        && ids.counter == old(ids.counter) + 1
        && r.value !in old(activeSources)
        && r.value in activeSources
        && activeSources == old(activeSources)[r.value := activeSources[r.value]]
        && fresh(activeSources[r.value])
        && ctx.Some? && activeSources[r.value].context == ctx.value
        && activeSources[r.value].buffer == Some(audioBuffers.value[name])
        && activeSources[r.value].loop == loop
    {
      if audioBuffers.None? || name !in audioBuffers.value {
        return Failure(UndefinedAudioBuffer);
      }
      var src := CreateBufferSource(ctx.value, audioBuffers.value[name], loop);
      var id := ids.GenerateSourceId();
      activeSources := activeSources[id := src];
      r := Success(id);
    }

    /**
     * The `onended` callback `play` installs for handle `id`: drop that one
     * entry. For a handle already gone it changes nothing.
     */
    method OnEnded(id: string)
      requires Valid()
      modifies this`activeSources
      ensures Valid()
      ensures activeSources == old(activeSources) - {id}
      ensures id !in activeSources
      ensures id !in old(activeSources) ==> activeSources == old(activeSources)
    {
      activeSources := activeSources - {id};
    }
  }

  /** One `play(name, loop)` call on one session. */
  datatype PlayRequest = PlayRequest(session: Borilla, name: string, loop: bool)

  /**
   * Any sequence of `play` calls, spread over any sessions that share the
   * library's counter: the handles of the successful calls are pairwise
   * distinct, and each of them is issued.
   */
  method PlayAll(ids: SourceIdGenerator, sessions: set<Borilla>, reqs: seq<PlayRequest>)
    returns (results: seq<Result<string, PlayError>>)
    requires forall s :: s in sessions ==> s.ids == ids && s.Valid()
    requires forall k :: 0 <= k < |reqs| ==> reqs[k].session in sessions
    modifies sessions, ids
    ensures forall s :: s in sessions ==> s.Valid()
    ensures |results| == |reqs|
    ensures forall i :: 0 <= i < |results| && results[i].Success? ==> ids.Issued(results[i].value)
    ensures forall i, j :: 0 <= i < j < |results| && results[i].Success? && results[j].Success? ==>
      results[i].value != results[j].value
  {
    results := [];
    while |results| < |reqs|
      invariant |results| <= |reqs|
      invariant forall s :: s in sessions ==> s.ids == ids && s.Valid()
      invariant forall i :: 0 <= i < |results| && results[i].Success? ==> ids.Issued(results[i].value)
      invariant forall i, j :: 0 <= i < j < |results| && results[i].Success? && results[j].Success? ==>
        results[i].value != results[j].value
    {
      var req := reqs[|results|];
      ghost var before := ids.counter;
      var r := req.session.Play(req.name, req.loop);
      if r.Success? {
        ParseDecimalString(before);
      }
      results := results + [r];
    }
  }

  /**
   * Fifty clicks' worth of `play(name)` on one session: `n` plays in a row. All
   * succeed or the first fails; the handles are pairwise distinct and all are
   * registered.
   */
  method PlayMany(b: Borilla, name: string, n: nat) returns (handles: seq<string>)
    requires b.Valid()
    modifies b`activeSources, b.ids
    ensures b.Valid()
    ensures |handles| == if b.HasBuffer(name) then n else 0
    ensures forall i, j :: 0 <= i < j < |handles| ==> handles[i] != handles[j]
    ensures forall i :: 0 <= i < |handles| ==> handles[i] in b.activeSources && handles[i] !in old(b.activeSources)
  {
    handles := [];
    while |handles| < n
      invariant b.Valid()
      invariant b.audioBuffers == old(b.audioBuffers) && b.ctx == old(b.ctx)
      invariant |handles| <= n
      invariant |handles| > 0 ==> b.HasBuffer(name)
      invariant old(b.activeSources).Keys <= b.activeSources.Keys
      invariant forall i, j :: 0 <= i < j < |handles| ==> handles[i] != handles[j]
      invariant forall i :: 0 <= i < |handles| ==> handles[i] in b.activeSources && handles[i] !in old(b.activeSources)
    {
      var r := b.Play(name);
      if r.Failure? {
        return;
      }
      handles := handles + [r.value];
    }
  }
}
