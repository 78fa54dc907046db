/** The vocabulary the music moods share: clip identities, per-clip timing,
    exit requests, playback handles and the requests a mood sends to the
    audio service. */
module Audio {
  import opened Common

  /** The clips the two Crimson Cloud moods play. */
  datatype BgmId =
    | Intro
    | CombatEnd
    | CombatEnter1 | CombatEnter2 | CombatEnter3
    | CombatVerse1 | CombatVerse2 | CombatVerse3 | CombatVerse4
    | CombatCoreLoopTransition1 | CombatCoreLoopTransition2 | CombatCoreLoopTransition3
    | CombatCoreLoopExit1 | CombatCoreLoopExit2

  /** One row of a timing table, in milliseconds of the clip's own play time:
      `transitionStart` is when the next clip is scheduled, `effectiveStart`
      when the clip counts as established. Both are non-negative by type. */
  datatype TrackData = TrackData(effectiveStart: nat, transitionStart: nat)

  /** Why the driver asks a mood to end. */
  datatype ExitType = Promotion | EndOfCombat | ImmediateExit

  /** A playback handle (a sample provider). `fadeable` says whether it is a
      fade-in/fade-out provider, the only kind that can begin a fade-out. */
  datatype Handle = Handle(id: nat, fadeable: bool)

  /** A request sent to the audio service. `Play` carries the optional second
      argument of `PlayBgm` (`None` when the caller relies on its default). */
  datatype AudioCall =
    | Play(clip: BgmId, param: Option<int>)
    | Remove(handle: Handle)
    | FadeOut(handle: Handle, durationMs: nat)

  /** The calls that hand `h` to the audio service for teardown. */
  ghost predicate Releases(calls: seq<AudioCall>, h: Handle)
  {
    exists i :: 0 <= i < |calls| && !calls[i].Play? && calls[i].handle == h
  }

  /** `RemoveBgmPart` on each handle, in order. */
  function RemoveAll(hs: seq<Handle>): (calls: seq<AudioCall>)
    ensures |calls| == |hs|
    ensures forall i :: 0 <= i < |hs| ==> calls[i] == Remove(hs[i])
  {
    if hs == [] then [] else [Remove(hs[0])] + RemoveAll(hs[1..])
  }

  /** What draining a crossfade queue asks of the audio service: every handle
      but the newest is removed, oldest first, and the newest begins a fade-out
      of `fadeMs` if it can fade (and is left alone if it cannot). */
  function DrainCalls(q: seq<Handle>, fadeMs: nat): seq<AudioCall>
  {
    if q == [] then []
    else RemoveAll(q[..|q| - 1]) + (if q[|q| - 1].fadeable then [FadeOut(q[|q| - 1], fadeMs)] else [])
  }

  /** Draining hands every older handle to `RemoveBgmPart` exactly at its queue
      position, and the newest one to a fade-out iff it is fadeable; nothing else
      is requested. */
  lemma DrainCallsSpec(q: seq<Handle>, fadeMs: nat)
    requires q != []
    ensures var calls := DrainCalls(q, fadeMs);
      && |calls| == |q| - 1 + (if q[|q| - 1].fadeable then 1 else 0)
      && (forall i :: 0 <= i < |q| - 1 ==> calls[i] == Remove(q[i]))
      && (q[|q| - 1].fadeable ==> calls[|q| - 1] == FadeOut(q[|q| - 1], fadeMs))
  {
    var calls := DrainCalls(q, fadeMs);
    var older := q[..|q| - 1];
    forall i | 0 <= i < |older| ensures calls[i] == Remove(q[i]) {
      assert calls[i] == RemoveAll(older)[i];
    }
  }

  /** A non-fadeable newest handle is never handed back to the service by a drain. */
  lemma DrainKeepsUnfadeableTail(q: seq<Handle>, fadeMs: nat)
    requires q != [] && !q[|q| - 1].fadeable
    requires forall i :: 0 <= i < |q| - 1 ==> q[i] != q[|q| - 1]
    ensures !Releases(DrainCalls(q, fadeMs), q[|q| - 1])
  {
    var calls := DrainCalls(q, fadeMs);
    DrainCallsSpec(q, fadeMs);
    forall i | 0 <= i < |calls| ensures calls[i].Play? || calls[i].handle != q[|q| - 1] {
      assert calls[i] == Remove(q[i]);
    }
  }

  /** What handing the oldest handle of a queue back to the service asks for:
      a fade-out of `fadeMs` if it can fade, otherwise `RemoveBgmPart`. */
  function ReleaseOldest(q: seq<Handle>, fadeMs: nat): (calls: seq<AudioCall>)
    ensures q == [] <==> calls == []
    ensures q != [] ==> |calls| == 1 && !calls[0].Play? && calls[0].handle == q[0]
    ensures q != [] ==> (calls[0].FadeOut? <==> q[0].fadeable)
    ensures q != [] && calls[0].FadeOut? ==> calls[0].durationMs == fadeMs
  {
    if q == [] then []
    else if q[0].fadeable then [FadeOut(q[0], fadeMs)]
    else [Remove(q[0])]
  }

  /** Queue after dequeuing its oldest element, if any (`Queue.TryDequeue`). */
  function DropOldest<T>(q: seq<T>): (r: seq<T>)
    ensures q == [] ==> r == []
    ensures q != [] ==> [q[0]] + r == q
  {
    if q == [] then [] else q[1..]
  }
}
