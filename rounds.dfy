/**
  One round of simultaneous playback (`playSimultaneously`), reduced to when the
  promise it returns settles. Each clip is fetched and decoded by
  `createBufferSource`, whose promise starts the clip's source as soon as it is
  decoded, resolves with no value once that source has ended, and rejects when
  the fetch or the decode fails. `Promise.all` collects these promises; the
  `filter` that follows keeps the entries that are source nodes with a buffer.
 */
module Rounds {
  import opened Wrappers

  /** How fetching and decoding one clip of the round ends. */
  datatype ClipLoad = Decoded | Failed

  /** The JavaScript value an entry of `bufferSources` can hold. */
  datatype JsValue = Undefined | SourceNode(hasBuffer: bool)

  /** When the promise returned by `playSimultaneously` settles.
      - Pending: never (the round's loop stops silently),
      - AllEnded: once every started source has ended (at once for no clips),
      - ChainEnded: on the `onended` of the last chained valid source. */
  datatype Completion = Pending | AllEnded | ChainEnded

  ghost predicate AllDecoded(loads: seq<ClipLoad>) {
    forall i | 0 <= i < |loads| :: loads[i] == Decoded
  }

  /** `Promise.all` over the per-clip promises: no value when one of them
      rejects; otherwise one `undefined` per clip, since each resolves with
      `resolve()`. */
  function AllSettled(loads: seq<ClipLoad>): (r: Option<seq<JsValue>>)
    ensures r.Some? <==> AllDecoded(loads)
    ensures r.Some? ==> |r.value| == |loads|
    ensures r.Some? ==> forall i | 0 <= i < |r.value| :: r.value[i] == Undefined
  {
    if loads == [] then Some([])
    else if loads[0] == Failed then None
    else match AllSettled(loads[1..])
      case None => None
      case Some(rest) => Some([Undefined] + rest)
  }

  /** `bufferSources.filter(source => source && source.buffer)`. */
  function ValidSources(values: seq<JsValue>): (r: seq<JsValue>)
    ensures |r| <= |values|
    ensures forall v <- r :: v.SourceNode? && v.hasBuffer
    ensures forall v <- r :: v in values
    ensures forall v <- values :: v.SourceNode? && v.hasBuffer ==> v in r
    ensures |r| == multiset(values)[SourceNode(true)]
  {
    if values == [] then []
    else
      assert values == [values[0]] + values[1..];
      var rest := ValidSources(values[1..]);
      if values[0].SourceNode? && values[0].hasBuffer then [values[0]] + rest else rest
  }

  /** The filter keeps nothing of a list of `undefined` entries. */
  lemma NoValidSources(values: seq<JsValue>)
    requires forall i | 0 <= i < |values| :: values[i] == Undefined
    ensures ValidSources(values) == []
  {
  }

  /** Number of sources the round starts: every clip that decodes is started
      inside `createBufferSource`, whether or not the round ever settles. */
  function Started(loads: seq<ClipLoad>): (n: nat)
    ensures n <= |loads|
    ensures n == |loads| <==> AllDecoded(loads)
    ensures n == 0 <==> forall i | 0 <= i < |loads| :: loads[i] == Failed
    ensures n == multiset(loads)[Decoded]
    ensures n + multiset(loads)[Failed] == |loads|
  {
    if loads == [] then 0
    else
      assert loads == [loads[0]] + loads[1..];
      (if loads[0] == Decoded then 1 else 0) + Started(loads[1..])
  }

  /** When the promise of one `playSimultaneously` round settles. A rejection
      of `Promise.all` is thrown inside the asynchronous callback and never
      reaches the outer promise, which stays pending. */
  function PlaySimultaneously(loads: seq<ClipLoad>): (c: Completion)
    ensures c != ChainEnded
    ensures c == AllEnded <==> AllDecoded(loads)
    ensures c == Pending <==> exists i | 0 <= i < |loads| :: loads[i] == Failed
  {
    match AllSettled(loads)
    case None => Pending
    case Some(values) =>
      // every entry is `undefined`, so the chaining branch is never taken
      NoValidSources(values);
      if |ValidSources(values)| > 0 then assert false; ChainEnded else AllEnded
  }

  /** A round over an empty clip list settles at once. */
  lemma EmptyRoundSettles()
    ensures PlaySimultaneously([]) == AllEnded && Started([]) == 0
  {
  }

  /** One failed clip keeps the round pending, yet every other clip of the
      round is still started. */
  lemma FailedClipStallsRound(loads: seq<ClipLoad>, i: nat)
    requires i < |loads| && loads[i] == Failed
    ensures PlaySimultaneously(loads) == Pending
    ensures multiset(loads)[Failed] >= 1
    ensures Started(loads) == |loads| - multiset(loads)[Failed]
  {
  }
}
