/**
 * The WebSocket audio processor: a bounded FIFO of packaged audio chunks with
 * a drop-oldest overflow policy, a running flag and a count of accepted pushes.
 */
module Audio {
  import opened Common

  const MimeType := "audio/pcm"

  /** Queue capacity of the WebSocket processor. */
  const WebSocketQueueSize := 100

  type Bytes = seq<bv8>

  /** An audio message in the inference API's format: raw PCM bytes and their MIME type. */
  datatype AudioMessage = AudioMessage(data: Bytes, mimeType: string)

  /** Packaging keeps the bytes as given and labels them as PCM audio. */
  function PackageAudio(data: Bytes): (m: AudioMessage)
    ensures m.data == data && m.mimeType == "audio/pcm"
  {
    AudioMessage(data, MimeType)
  }

  /** `asyncio.Queue.full()`: a capacity of 0 or less means the queue is unbounded. */
  function IsFull(queue: seq<AudioMessage>, maxsize: int): (full: bool)
    // an unbounded queue is never full
    ensures maxsize <= 0 ==> !full
    // a queue within its capacity is full exactly when it is at the capacity
    ensures WithinCapacity(queue, maxsize) ==> (full <==> maxsize > 0 && |queue| == maxsize)
  {
    maxsize > 0 && |queue| >= maxsize
  }

  /** The queue length respects the capacity. */
  predicate WithinCapacity(queue: seq<AudioMessage>, maxsize: int)
  {
    maxsize <= 0 || |queue| <= maxsize
  }

  /** The newest `maxsize` elements of `s` (all of `s` when the capacity is unbounded). */
  function Newest(s: seq<AudioMessage>, maxsize: int): (r: seq<AudioMessage>)
    ensures WithinCapacity(r, maxsize)
  {
    if maxsize <= 0 || |s| <= maxsize then s else s[|s| - maxsize..]
  }

  /** One push onto a queue within capacity: evict the head if full, then append. */
  function Offer(queue: seq<AudioMessage>, maxsize: int, msg: AudioMessage): (q: seq<AudioMessage>)
    requires WithinCapacity(queue, maxsize)
    // the queue keeps the newest messages, in arrival order
    ensures q == Newest(queue + [msg], maxsize)
    ensures WithinCapacity(q, maxsize)
    // a push onto a full queue keeps its length; otherwise it grows by one
    ensures |q| == (if IsFull(queue, maxsize) then |queue| else |queue| + 1)
  {
    var kept := if IsFull(queue, maxsize) then queue[1..] else queue;
    assert IsFull(queue, maxsize) ==> queue + [msg] == [queue[0]] + (queue[1..] + [msg]);
    kept + [msg]
  }

  /** Pushes every message in order. */
  function OfferAll(queue: seq<AudioMessage>, maxsize: int, msgs: seq<AudioMessage>): (q: seq<AudioMessage>)
    requires WithinCapacity(queue, maxsize)
    ensures WithinCapacity(q, maxsize)
    decreases |msgs|
  {
    if msgs == [] then queue
    else OfferAll(Offer(queue, maxsize, msgs[0]), maxsize, msgs[1..])
  }

  /** Taking the newest elements twice, with messages appended in between, is the same as once over the whole. */
  lemma NewestConcat(s: seq<AudioMessage>, maxsize: int, rest: seq<AudioMessage>)
    ensures Newest(Newest(s, maxsize) + rest, maxsize) == Newest(s + rest, maxsize)
  {
  }

  /**
   * Drop-oldest backpressure over a whole run of pushes: the queue holds
   * exactly the newest `maxsize` messages of everything queued, in FIFO order.
   */
  lemma {:induction false} OfferAllKeepsNewest(queue: seq<AudioMessage>, maxsize: int, msgs: seq<AudioMessage>)
    requires WithinCapacity(queue, maxsize)
    ensures OfferAll(queue, maxsize, msgs) == Newest(queue + msgs, maxsize)
    decreases |msgs|
  {
    if msgs == [] {
      assert queue + msgs == queue;
    } else {
      var rest := msgs[1..];
      calc {
        OfferAll(queue, maxsize, msgs);
        OfferAll(Offer(queue, maxsize, msgs[0]), maxsize, rest);
        { OfferAllKeepsNewest(Offer(queue, maxsize, msgs[0]), maxsize, rest); }
        Newest(Offer(queue, maxsize, msgs[0]) + rest, maxsize);
        Newest(Newest(queue + [msgs[0]], maxsize) + rest, maxsize);
        { NewestConcat(queue + [msgs[0]], maxsize, rest); }
        Newest((queue + [msgs[0]]) + rest, maxsize);
        { AppendAssoc(queue, [msgs[0]], rest);
          assert [msgs[0]] + rest == msgs; }
        Newest(queue + msgs, maxsize);
      }
    }
  }

  /**
   * After at least `maxsize` pushes, only the last `maxsize` messages remain,
   * whatever the queue held before.
   */
  lemma OverflowKeepsLastMessages(queue: seq<AudioMessage>, maxsize: int, msgs: seq<AudioMessage>)
    requires WithinCapacity(queue, maxsize)
    requires 0 < maxsize <= |msgs|
    ensures OfferAll(queue, maxsize, msgs) == msgs[|msgs| - maxsize..]
  {
    OfferAllKeepsNewest(queue, maxsize, msgs);
    var all := queue + msgs;
    assert all[|all| - maxsize..] == msgs[|msgs| - maxsize..];
  }

  class WebSocketAudioProcessor {
    const maxsize: int
    var audioQueue: seq<AudioMessage>
    var isRunning: bool
    var chunkCount: nat

    ghost predicate Valid()
      reads this
    {
      WithinCapacity(audioQueue, maxsize)
    }

    /** A stopped processor with an empty queue of the given capacity. */
    constructor (queueMaxsize: int)
      ensures Valid()
      ensures maxsize == queueMaxsize && audioQueue == [] && !isRunning && chunkCount == 0
    {
      maxsize := queueMaxsize;
      audioQueue := [];
      isRunning := false;
      chunkCount := 0;
    }

    /** Starts accepting audio and zeroes the counter; a no-op when already running. */
    method Start()
      requires Valid()
      modifies this
      ensures Valid()
      ensures isRunning && audioQueue == old(audioQueue)
      ensures chunkCount == (if old(isRunning) then old(chunkCount) else 0)
    {
      if isRunning {
        return;
      }
      isRunning := true;
      chunkCount := 0;
    }

    /** Stops accepting audio and drains the queue; the counter is kept. */
    method Stop()
      requires Valid()
      modifies this
      ensures Valid()
      ensures !isRunning && audioQueue == [] && chunkCount == old(chunkCount)
    {
      isRunning := false;
      while |audioQueue| > 0
        invariant Valid()
        invariant !isRunning && chunkCount == old(chunkCount)
        decreases |audioQueue|
      {
        audioQueue := audioQueue[1..];
      }
    }

    /**
     * Queues one chunk. A stopped processor refuses it and changes nothing;
     * a running one drops the oldest chunk when full, appends, and counts the push.
     */
    method PushAudio(data: Bytes) returns (ok: bool)
      requires Valid()
      modifies this
      ensures Valid()
      ensures ok == old(isRunning) && isRunning == old(isRunning)
      ensures audioQueue == (if ok then Offer(old(audioQueue), maxsize, PackageAudio(data)) else old(audioQueue))
      ensures chunkCount == (if ok then old(chunkCount) + 1 else old(chunkCount))
    {
      if !isRunning {
        return false;
      }
      var msg := PackageAudio(data);
      if IsFull(audioQueue, maxsize) {
        audioQueue := audioQueue[1..];
      }
      audioQueue := audioQueue + [msg];
      chunkCount := chunkCount + 1;
      return true;
    }

    /** The non-suspending variant of PushAudio, with the same behaviour. */
    method PushAudioSync(data: Bytes) returns (ok: bool)
      requires Valid()
      modifies this
      ensures Valid()
      ensures ok == old(isRunning) && isRunning == old(isRunning)
      ensures audioQueue == (if ok then Offer(old(audioQueue), maxsize, PackageAudio(data)) else old(audioQueue))
      ensures chunkCount == (if ok then old(chunkCount) + 1 else old(chunkCount))
    {
      if !isRunning {
        return false;
      }
      var msg := PackageAudio(data);
      if IsFull(audioQueue, maxsize) {
        audioQueue := audioQueue[1..];
      }
      audioQueue := audioQueue + [msg];
      chunkCount := chunkCount + 1;
      return true;
    }

    /**
     * Takes the oldest queued message. On an empty queue the original suspends
     * until a chunk arrives; here that is reported as None with nothing changed.
     */
    method GetAudio() returns (m: Option<AudioMessage>)
      requires Valid()
      modifies this
      ensures Valid()
      ensures old(audioQueue) == [] ==> m == None && audioQueue == []
      ensures old(audioQueue) != [] ==> m == Some(old(audioQueue)[0]) && audioQueue == old(audioQueue)[1..]
      ensures isRunning == old(isRunning) && chunkCount == old(chunkCount)
    {
      if audioQueue == [] {
        return None;
      }
      m := Some(audioQueue[0]);
      audioQueue := audioQueue[1..];
    }

    function ChunkCount(): (n: int)
      reads this
      ensures n == chunkCount && n >= 0
    {
      chunkCount
    }
  }

  /**
   * A chunk pushed onto an empty running processor comes back from GetAudio
   * as the packaged message: its bytes and the PCM MIME type.
   */
  method PushThenGet(data: Bytes) returns (m: Option<AudioMessage>)
    ensures m == Some(AudioMessage(data, "audio/pcm"))
  {
    var processor := new WebSocketAudioProcessor(WebSocketQueueSize);
    processor.Start();
    var ok := processor.PushAudio(data);
    m := processor.GetAudio();
  }
}
