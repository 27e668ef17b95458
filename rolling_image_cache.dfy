/**
 * The rolling image cache of an animated image: a bounded FIFO of frames.
 * Each frame names one of the animation's URLs by index and carries a ready
 * flag; the URL table holds the texture id each URL was last loaded as.
 * Loading walks the URL table round-robin, a batch at a time, until the
 * queue is full.
 *
 * The abstract state is the `State` datatype; the functions over it are the
 * specification, and the class `Cache` updates its fields in place and is
 * proved to follow them.
 */
module RollingImageCache {
  import opened Wrappers

  /** The texture id of a URL whose texture has been released. */
  const INVALID_TEXTURE_ID: int := -1

  /** What the texture manager answers to a load request: the texture id, and whether
      the upload completed synchronously, inside the request. */
  datatype LoadResponse = LoadResponse(textureId: int, uploadedDuringRequest: bool)

  /** A handle on the texture set of a loaded texture. */
  datatype TextureSet = TextureSet(handle: nat)

  /** One queued frame: the URL it shows and whether its texture is ready. */
  datatype Frame = Frame(urlIndex: nat, ready: bool)

  /**
   * What does not change during the cache's life: the URLs, the queue's capacity,
   * the batch size, and the texture manager, given as two functions. A load
   * request is answered from the URL and the number of requests made before it.
   */
  datatype Env = Env(urls: seq<string>, capacity: nat, batchSize: nat,
                     requestLoad: (string, nat) -> LoadResponse,
                     getTextureSet: int -> Option<TextureSet>)

  /**
   * The cache's changing state. `requests` counts load requests made so far;
   * `notified` lists what the frame-ready observer was given, and `removed` the
   * texture ids handed back to the texture manager, oldest first.
   */
  datatype State = State(queue: seq<Frame>, urlIndex: nat, textureIds: seq<int>, requests: nat,
                         waiting: bool, notified: seq<Option<TextureSet>>, removed: seq<int>)

  /** The queue stays within capacity, and every URL index, the next one included, is in range. */
  ghost predicate Inv(env: Env, s: State)
  {
    |env.urls| > 0 && |s.textureIds| == |env.urls| && s.urlIndex < |env.urls| &&
    |s.queue| <= env.capacity &&
    forall k :: 0 <= k < |s.queue| ==> s.queue[k].urlIndex < |env.urls|
  }

  /** The front frame exists and is ready. */
  predicate FrontReady(s: State)
  {
    |s.queue| > 0 && s.queue[0].ready
  }

  /** The texture set of the front frame's texture. */
  function FrontTextureSet(env: Env, s: State): Option<TextureSet>
    requires |s.queue| > 0 && s.queue[0].urlIndex < |s.textureIds|
  {
    env.getTextureSet(s.textureIds[s.queue[0].urlIndex])
  }

  /** One round of the load loop: queue a not-ready frame for the current URL, advance the
      URL index round-robin, request the texture, and take the answer. An upload that
      completes inside the request marks the frame just queued as ready. */
  function PushOne(env: Env, s: State): (r: State)
    requires Inv(env, s) && |s.queue| < env.capacity
    ensures Inv(env, r)
    ensures r.queue == s.queue + [Frame(s.urlIndex, env.requestLoad(env.urls[s.urlIndex], s.requests).uploadedDuringRequest)]
    ensures r.urlIndex == (s.urlIndex + 1) % |env.urls|
    ensures r.requests == s.requests + 1
    ensures r.textureIds == s.textureIds[s.urlIndex := env.requestLoad(env.urls[s.urlIndex], s.requests).textureId]
    ensures r.waiting == s.waiting && r.notified == s.notified && r.removed == s.removed
  {
    var response := env.requestLoad(env.urls[s.urlIndex], s.requests);
    s.(queue := s.queue + [Frame(s.urlIndex, response.uploadedDuringRequest)],
       urlIndex := (s.urlIndex + 1) % |env.urls|,
       textureIds := s.textureIds[s.urlIndex := response.textureId],
       requests := s.requests + 1)
  }

  /** `n` rounds of the load loop. The frames already queued stay; the first new frame shows
      the current URL and each further one the URL after its predecessor's, round-robin, and
      the URL index ends just after the last one queued. */
  function Pushes(env: Env, s: State, n: nat): (r: State)
    requires Inv(env, s) && |s.queue| + n <= env.capacity
    ensures Inv(env, r)
    ensures |r.queue| == |s.queue| + n && r.queue[..|s.queue|] == s.queue
    ensures n > 0 ==> r.queue[|s.queue|].urlIndex == s.urlIndex
    ensures forall k :: |s.queue| <= k < |r.queue| - 1 ==>
              r.queue[k + 1].urlIndex == (r.queue[k].urlIndex + 1) % |env.urls|
    ensures r.urlIndex == if n == 0 then s.urlIndex else (r.queue[|r.queue| - 1].urlIndex + 1) % |env.urls|
    ensures r.requests == s.requests + n
    ensures r.waiting == s.waiting && r.notified == s.notified && r.removed == s.removed
    decreases n
  {
    if n == 0 then s else PushOne(env, Pushes(env, s, n - 1))
  }

  /** How many frames a batch queues: the batch size, or less when the queue fills first. */
  function PushCount(env: Env, s: State): (n: nat)
    requires |s.queue| <= env.capacity
    ensures n <= env.batchSize && |s.queue| + n <= env.capacity
    ensures n < env.batchSize ==> |s.queue| + n == env.capacity
  {
    if env.batchSize <= env.capacity - |s.queue| then env.batchSize else env.capacity - |s.queue|
  }

  /** The observer hears of a frame only when it was waiting and the front has just become
      ready; it is then no longer waiting. */
  function CheckFront(env: Env, s: State, wasReady: bool): (r: State)
    requires Inv(env, s)
    ensures Inv(env, r)
    ensures r.queue == s.queue && r.urlIndex == s.urlIndex && r.textureIds == s.textureIds
    ensures r.requests == s.requests && r.removed == s.removed
    ensures (s.waiting && !wasReady && FrontReady(s)) ==>
              !r.waiting && r.notified == s.notified + [FrontTextureSet(env, s)]
    ensures !(s.waiting && !wasReady && FrontReady(s)) ==> r == s
  {
    if s.waiting && !wasReady && FrontReady(s) then
      s.(waiting := false, notified := s.notified + [FrontTextureSet(env, s)])
    else s
  }

  /** A whole batch: at most the batch size, never beyond capacity, then the front check. */
  function LoadBatchSpec(env: Env, s: State): (r: State)
    requires Inv(env, s)
    ensures Inv(env, r)
    ensures |s.queue| <= |r.queue| <= |s.queue| + env.batchSize
    ensures r.queue[..|s.queue|] == s.queue
    ensures |r.queue| < |s.queue| + env.batchSize ==> |r.queue| == env.capacity
    ensures |r.queue| > |s.queue| ==> r.queue[|s.queue|].urlIndex == s.urlIndex
    ensures forall k :: |s.queue| <= k < |r.queue| - 1 ==>
              r.queue[k + 1].urlIndex == (r.queue[k].urlIndex + 1) % |env.urls|
    ensures r.removed == s.removed
  {
    CheckFront(env, Pushes(env, s, PushCount(env, s)), FrontReady(s))
  }

  /** Popping the front frame: its texture is handed back and its URL's texture id becomes invalid. */
  function PopFront(env: Env, s: State): (r: State)
    requires Inv(env, s) && |s.queue| > 0
    ensures Inv(env, r)
    ensures r.queue == s.queue[1..]
    ensures r.removed == s.removed + [s.textureIds[s.queue[0].urlIndex]]
    ensures r.textureIds == s.textureIds[s.queue[0].urlIndex := INVALID_TEXTURE_ID]
    ensures r.urlIndex == s.urlIndex && r.requests == s.requests
    ensures r.waiting == s.waiting && r.notified == s.notified
  {
    var f := s.queue[0];
    s.(queue := s.queue[1..],
       removed := s.removed + [s.textureIds[f.urlIndex]],
       textureIds := s.textureIds[f.urlIndex := INVALID_TEXTURE_ID])
  }

  /** The next frame: pop the front, take the new front's texture set if it is ready (otherwise
      start waiting), then load another batch. */
  function NextFrameSpec(env: Env, s: State): (r: (State, Option<TextureSet>))
    requires Inv(env, s) && |s.queue| > 0
    ensures Inv(env, r.0)
    ensures r.0.removed == s.removed + [s.textureIds[s.queue[0].urlIndex]]
    ensures |s.queue| - 1 <= |r.0.queue| <= |s.queue| - 1 + env.batchSize
    ensures r.0.queue[..|s.queue| - 1] == s.queue[1..]
    ensures r.1.Some? ==> FrontReady(PopFront(env, s))
    ensures FrontReady(PopFront(env, s)) ==> r.1 == FrontTextureSet(env, PopFront(env, s))
  {
    var p := PopFront(env, s);
    if FrontReady(p) then (LoadBatchSpec(env, p), FrontTextureSet(env, p))
    else (LoadBatchSpec(env, p.(waiting := true)), None)
  }

  /** Position of the first queued frame whose URL currently holds texture `t`. */
  function FirstWithTexture(queue: seq<Frame>, ids: seq<int>, t: int): (r: Option<nat>)
    requires forall k :: 0 <= k < |queue| ==> queue[k].urlIndex < |ids|
    ensures r.Some? ==> r.value < |queue| && ids[queue[r.value].urlIndex] == t
    ensures r.Some? ==> forall k :: 0 <= k < r.value ==> ids[queue[k].urlIndex] != t
    ensures r.None? ==> forall k :: 0 <= k < |queue| ==> ids[queue[k].urlIndex] != t
  {
    if |queue| == 0 then None
    else if ids[queue[0].urlIndex] == t then Some(0)
    else match FirstWithTexture(queue[1..], ids, t)
      case None => None
      case Some(k) => Some(k + 1)
  }

  /** Marking ready the first frame showing texture `t`; every other frame keeps its flag. */
  function SetReadySpec(s: State, t: int): (r: State)
    requires forall k :: 0 <= k < |s.queue| ==> s.queue[k].urlIndex < |s.textureIds|
    ensures |r.queue| == |s.queue|
    ensures forall k :: 0 <= k < |s.queue| ==> r.queue[k].urlIndex == s.queue[k].urlIndex
    ensures forall k :: 0 <= k < |s.queue| ==>
              r.queue[k].ready == (s.queue[k].ready || FirstWithTexture(s.queue, s.textureIds, t) == Some(k))
    ensures r == s.(queue := r.queue)
  {
    match FirstWithTexture(s.queue, s.textureIds, t)
    case None => s
    case Some(i) => s.(queue := s.queue[i := s.queue[i].(ready := true)])
  }

  /** An upload finishing outside a load request: mark its frame ready, then check the front. */
  function UploadCompleteSpec(env: Env, s: State, t: int): (r: State)
    requires Inv(env, s)
    ensures Inv(env, r)
    ensures |r.queue| == |s.queue| && r.removed == s.removed && r.textureIds == s.textureIds
  {
    CheckFront(env, SetReadySpec(s, t), FrontReady(s))
  }

  /** The texture ids of the given frames, in queue order. */
  function TexturesOf(queue: seq<Frame>, ids: seq<int>): (r: seq<int>)
    requires forall k :: 0 <= k < |queue| ==> queue[k].urlIndex < |ids|
    ensures |r| == |queue|
    ensures forall k :: 0 <= k < |queue| ==> r[k] == ids[queue[k].urlIndex]
  {
    if |queue| == 0 then [] else [ids[queue[0].urlIndex]] + TexturesOf(queue[1..], ids)
  }

  /** Taking a prefix of the queue one frame further adds that frame's texture id at the end. */
  lemma {:induction false} TexturesOfSnoc(queue: seq<Frame>, ids: seq<int>, k: nat)
    requires forall j :: 0 <= j < |queue| ==> queue[j].urlIndex < |ids|
    requires k < |queue|
    ensures TexturesOf(queue[..k + 1], ids) == TexturesOf(queue[..k], ids) + [ids[queue[k].urlIndex]]
  {
    var a := TexturesOf(queue[..k + 1], ids);
    var b := TexturesOf(queue[..k], ids) + [ids[queue[k].urlIndex]];
    assert |a| == |b|;
    forall j | 0 <= j < |a| ensures a[j] == b[j] {
    }
  }

  class Cache {
    const env: Env
    var queue: seq<Frame>
    var urlIndex: nat
    var textureIds: seq<int>
    var requests: nat
    var waiting: bool
    var notified: seq<Option<TextureSet>>
    var removed: seq<int>
    /** Set only while a load request is in progress. */
    var requestingLoad: bool

    function Snapshot(): State
      reads this
    {
      State(queue, urlIndex, textureIds, requests, waiting, notified, removed)
    }

    ghost predicate Valid()
      reads this
    {
      Inv(env, Snapshot()) && (requestingLoad ==> |queue| > 0)
    }

    /** A new cache starts empty with the first URL and loads its first batch. */
    constructor (urls: seq<string>, cacheSize: nat, batchSize: nat,
                 requestLoad: (string, nat) -> LoadResponse,
                 getTextureSet: int -> Option<TextureSet>)
      requires |urls| > 0
      ensures Valid() && !requestingLoad
      ensures env == Env(urls, cacheSize, batchSize, requestLoad, getTextureSet)
      ensures Snapshot() == LoadBatchSpec(env, State([], 0, seq(|urls|, _ => INVALID_TEXTURE_ID), 0, false, [], []))
    {
      env := Env(urls, cacheSize, batchSize, requestLoad, getTextureSet);
      queue := [];
      urlIndex := 0;
      textureIds := seq(|urls|, _ => INVALID_TEXTURE_ID);
      requests := 0;
      waiting := false;
      notified := [];
      removed := [];
      requestingLoad := false;
      new;
      LoadBatch();
    }

    /** The front frame exists and is ready. */
    method IsFrontReady() returns (r: bool)
      ensures r <==> |queue| > 0 && queue[0].ready
    {
      r := |queue| > 0 && queue[0].ready;
    }

    /** The first frame's texture set; when there is none yet, the cache starts waiting for one. */
    method FirstFrame() returns (textureSet: Option<TextureSet>)
      requires Valid() && |queue| > 0
      modifies this`waiting
      ensures Valid()
      ensures textureSet == FrontTextureSet(env, old(Snapshot()))
      ensures waiting == (old(waiting) || textureSet.None?)
    {
      textureSet := env.getTextureSet(textureIds[queue[0].urlIndex]);
      if textureSet.None? {
        waiting := true;
      }
    }

    method CheckFrontFrame(wasReady: bool)
      requires Valid() && !requestingLoad
      modifies this`waiting, this`notified
      ensures Valid() && !requestingLoad
      ensures Snapshot() == CheckFront(env, old(Snapshot()), wasReady)
    {
      var frontReady := IsFrontReady();
      if waiting && !wasReady && frontReady {
        waiting := false;
        notified := notified + [env.getTextureSet(textureIds[queue[0].urlIndex])];
      }
    }

    /** Marks ready the first queued frame whose URL holds `textureId`, and no other. */
    method SetImageFrameReady(textureId: int)
      requires Valid()
      modifies this`queue
      ensures Valid()
      ensures Snapshot() == SetReadySpec(old(Snapshot()), textureId)
    {
      var i := 0;
      while i < |queue|
        invariant i <= |queue| == |old(queue)|
        invariant queue == old(queue)
        invariant forall k :: 0 <= k < i ==> textureIds[queue[k].urlIndex] != textureId
      {
        if textureIds[queue[i].urlIndex] == textureId {
          queue := queue[i := queue[i].(ready := true)];
          assert FirstWithTexture(old(queue), textureIds, textureId) == Some(i);
          return;
        }
        i := i + 1;
      }
    }

    /** The texture manager reports a finished upload. Inside a load request the texture id is
        not assigned yet, so the frame just queued is the one made ready. */
    method UploadComplete(loadSuccess: bool, textureId: int)
      requires Valid()
      modifies this
      ensures Valid() && requestingLoad == old(requestingLoad)
      ensures !old(requestingLoad) ==> Snapshot() == UploadCompleteSpec(env, old(Snapshot()), textureId)
      ensures old(requestingLoad) ==>
                Snapshot() == old(Snapshot()).(queue := old(queue)[|old(queue)| - 1 := old(queue)[|old(queue)| - 1].(ready := true)])
    {
      var frontFrameReady := IsFrontReady();
      if !requestingLoad {
        SetImageFrameReady(textureId);
        CheckFrontFrame(frontFrameReady);
      } else {
        queue := queue[|queue| - 1 := queue[|queue| - 1].(ready := true)];
      }
    }

    /** Queues up to a batch of frames, round-robin over the URLs, until the queue is full. */
    method LoadBatch()
      requires Valid() && !requestingLoad
      modifies this
      ensures Valid() && !requestingLoad
      ensures Snapshot() == LoadBatchSpec(env, old(Snapshot()))
    {
      var frontFrameReady := IsFrontReady();
      ghost var s0 := Snapshot();
      var i := 0;
      while i < env.batchSize && |queue| < env.capacity
        invariant Valid() && !requestingLoad
        invariant i <= PushCount(env, s0) && |queue| == |s0.queue| + i
        invariant Snapshot() == Pushes(env, s0, i)
      {
        LoadOne();
        i := i + 1;
      }
      assert i == PushCount(env, s0);
      CheckFrontFrame(frontFrameReady);
    }

    /** One round of the load loop. */
    method LoadOne()
      requires Valid() && !requestingLoad && |queue| < env.capacity
      modifies this
      ensures Valid() && !requestingLoad
      ensures Snapshot() == PushOne(env, old(Snapshot()))
    {
      var index := urlIndex;
      var url := env.urls[index];
      urlIndex := (urlIndex + 1) % |env.urls|;
      queue := queue + [Frame(index, false)];
      requestingLoad := true;
      var response := env.requestLoad(url, requests);
      requests := requests + 1;
      if response.uploadedDuringRequest {
        UploadComplete(true, response.textureId);
      }
      textureIds := textureIds[index := response.textureId];
      requestingLoad := false;
    }

    /** Drops the front frame, releasing its texture, and loads more. */
    method NextFrame() returns (textureSet: Option<TextureSet>)
      requires Valid() && !requestingLoad && |queue| > 0
      modifies this
      ensures Valid() && !requestingLoad
      ensures (Snapshot(), textureSet) == NextFrameSpec(env, old(Snapshot()))
    {
      var frame := queue[0];
      queue := queue[1..];
      removed := removed + [textureIds[frame.urlIndex]];
      textureIds := textureIds[frame.urlIndex := INVALID_TEXTURE_ID];
      var frontReady := IsFrontReady();
      if frontReady {
        textureSet := env.getTextureSet(textureIds[queue[0].urlIndex]);
      } else {
        textureSet := None;
        waiting := true;
      }
      LoadBatch();
    }

    /** Tear-down: every queued frame is popped and its texture handed back, in queue order. */
    method Destroy()
      requires Valid()
      modifies this`queue, this`removed
      ensures queue == []
      ensures removed == old(removed) + TexturesOf(old(queue), textureIds)
    {
      ghost var q0 := queue;
      ghost var k := 0;
      while |queue| > 0
        invariant k <= |q0| && queue == q0[k..]
        invariant removed == old(removed) + TexturesOf(q0[..k], textureIds)
        invariant forall j :: 0 <= j < |q0| ==> q0[j].urlIndex < |textureIds|
        decreases |queue|
      {
        var frame := queue[0];
        queue := queue[1..];
        TexturesOfSnoc(q0, textureIds, k);
        removed := removed + [textureIds[frame.urlIndex]];
        k := k + 1;
      }
      assert q0[..k] == q0;
    }
  }
}
