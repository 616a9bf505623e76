/**
 * Building the decoded-buffer table in `initialize`: every configured URL is
 * fetched and decoded, all results are awaited together, and the results are
 * zipped back by index into a name -> buffer table. Fetching and decoding are
 * one abstract function `decode` that may fail.
 */
module AssetLoader {
  import opened Wrappers
  import opened AudioPlatform

  /** One configured asset: `name: url`. */
  datatype Entry = Entry(name: string, url: Url)

  predicate UniqueNames(entries: seq<Entry>) {
    forall i, j :: 0 <= i < j < |entries| ==> entries[i].name != entries[j].name
  }

  /**
   * The `audioUrls` object as `Object.entries` lists it: own properties in
   * order, so no name occurs twice.
   */
  type AudioUrls = entries: seq<Entry> | UniqueNames(entries) witness []

  function Names(entries: seq<Entry>): set<string> {
    set e | e in entries :: e.name
  }

  /** Every asset's fetch and decode succeeds. */
  predicate AllDecodable(entries: seq<Entry>, decode: Url -> Option<AudioBuffer>) {
    forall i :: 0 <= i < |entries| ==> decode(entries[i].url).Some?
  }

  /**
   * `Promise.all` over the fetch-and-decode of every entry: all results in
   * entry order, or nothing when any of them fails.
   */
  function DecodeAll(entries: seq<Entry>, decode: Url -> Option<AudioBuffer>): (r: Option<seq<AudioBuffer>>)
    ensures r.Some? <==> AllDecodable(entries, decode)
    ensures r.Some? ==> |r.value| == |entries|
    ensures r.Some? ==> forall i :: 0 <= i < |entries| ==> r.value[i] == decode(entries[i].url).value
  {
    if entries == [] then Some([])
    else
      match decode(entries[0].url)
      case None => None
      case Some(b) =>
        match DecodeAll(entries[1..], decode)
        case None => None
        case Some(rest) => Some([b] + rest)
  }

  /**
   * The `reduce` that zips names and results by index: entry `i`'s name is
   * bound to result `i`.
   */
  function Zip(entries: AudioUrls, buffers: seq<AudioBuffer>): (t: map<string, AudioBuffer>)
    requires |buffers| == |entries|
    ensures t.Keys == Names(entries)
    ensures forall i :: 0 <= i < |entries| ==> t[entries[i].name] == buffers[i]
  {
    if entries == [] then map[]
    else
      var n := |entries| - 1;
      var prefix: AudioUrls := entries[..n];
      assert entries == prefix + [entries[n]];
      Zip(prefix, buffers[..n])[entries[n].name := buffers[n]]
  }

  /**
   * The table `initialize` stores: present exactly when every asset decodes,
   * and then binding every configured name, and nothing else, to the decode
   * of that name's own URL.
   */
  function BuildTable(urls: AudioUrls, decode: Url -> Option<AudioBuffer>): (r: Option<map<string, AudioBuffer>>)
    ensures r.Some? <==> AllDecodable(urls, decode)
    ensures r.Some? ==> r.value.Keys == Names(urls)
    ensures r.Some? ==> forall i :: 0 <= i < |urls| ==> r.value[urls[i].name] == decode(urls[i].url).value
  {
    match DecodeAll(urls, decode)
    case None => None
    case Some(buffers) => Some(Zip(urls, buffers))
  }

  /** One failing asset is enough to leave no table at all. */
  lemma OneFailureLosesTable(urls: AudioUrls, decode: Url -> Option<AudioBuffer>, k: nat)
    requires k < |urls| && decode(urls[k].url).None?
    ensures BuildTable(urls, decode).None?
  {
  }
}
