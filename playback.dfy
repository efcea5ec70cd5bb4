/**
 * The ordered, interruptible playback of streamed audio fragments
 * (static/script.js:511-629): `audioQueue`, the `isPlayingAudio` guard, the
 * `audioSourceNodes` registry, and the drain loop of `processAudioQueue`.
 *
 * The drain loop is an async function; each `await` is a boundary between
 * the step methods below. The model tracks, as ghost state, where every
 * suspended loop waits: on the `onended` of the source it started (line 530),
 * or with the loop test at line 527 as its next step (after the 10 ms pause
 * of line 532, or after a rejected fragment is caught at line 533).
 */
module Playback {
  import opened Common
  import Pcm

  /** One `response.audio.delta` payload: base64 text of little-endian PCM16. */
  type Fragment = string

  /** The identity of one AudioBufferSourceNode. */
  type Handle = nat

  /** Why a fragment could not be started; the drain loop catches each one. */
  datatype Failure =
    | Undecodable   // `atob` threw
    | OddLength     // the Int16Array view raised a RangeError
    | EmptyBuffer   // `createBuffer` refuses a buffer of zero frames

  datatype Attempt = Start(samples: seq<Pcm.Int16>) | Reject(failure: Failure)

  /** One started buffer: the fragment and the samples it was decoded to. */
  datatype Sound = Sound(fragment: Fragment, samples: seq<Pcm.Int16>)

  /** What became of a fragment that left the queue. */
  datatype Fate =
    | Played(fragment: Fragment)
    | Skipped(fragment: Fragment, failure: Failure)
    | Dropped(fragment: Fragment)   // cleared by `clearAudioQueue` before a loop took it

  /**
   * `playAudioChunk` and `playAudioData` up to `start()`: base64-decode with the
   * browser's `atob`, view the bytes as Int16 samples, and build a buffer.
   * A fragment starts exactly when it decodes to a non-empty even number of
   * bytes, and then its samples are those bytes.
   */
  function TryStart(atob: Fragment -> Option<seq<Pcm.byte>>, f: Fragment): (r: Attempt)
    ensures r.Start? <==> atob(f).Some? && |atob(f).value| % 2 == 0 && |atob(f).value| > 0
    ensures r.Start? ==> Pcm.Bytes(r.samples) == atob(f).value
    ensures r == Reject(Undecodable) <==> atob(f).None?
    ensures r == Reject(OddLength) <==> atob(f).Some? && |atob(f).value| % 2 == 1
  {
    match atob(f)
    case None => Reject(Undecodable)
    case Some(bytes) =>
      match Pcm.Samples(bytes)
      case Err(_) => Reject(OddLength)
      case Ok(samples) =>
        Pcm.BytesOfSamples(bytes);
        if samples == [] then Reject(EmptyBuffer) else Start(samples)
  }

  predicate Distinct(s: seq<Handle>) {
    forall i, j :: 0 <= i < j < |s| ==> s[i] != s[j]
  }

  /** `a` is `b` with some entries left out and the rest in their order. */
  predicate IsSubsequence<T(==)>(a: seq<T>, b: seq<T>)
    decreases |b|
  {
    if a == [] then true
    else if b == [] then false
    else (a[|a| - 1] == b[|b| - 1] && IsSubsequence(a[..|a| - 1], b[..|b| - 1]))
         || IsSubsequence(a, b[..|b| - 1])
  }

  lemma {:induction false} SubsequenceOfItself<T>(a: seq<T>)
    ensures IsSubsequence(a, a)
    decreases |a|
  {
    if a != [] {
      SubsequenceOfItself(a[..|a| - 1]);
    }
  }

  lemma {:induction false} SubsequenceOfLonger<T>(a: seq<T>, b: seq<T>, c: seq<T>)
    requires IsSubsequence(a, b)
    ensures IsSubsequence(a, b + c)
    decreases |c|
  {
    if c != [] && a != [] {
      SubsequenceOfLonger(a, b, c[..|c| - 1]);
      assert (b + c)[..|b + c| - 1] == b + c[..|c| - 1];
      assert IsSubsequence(a, (b + c)[..|b + c| - 1]);
    } else if c == [] {
      assert b + c == b;
    }
  }

  /** Leaving out the entry at `i` gives a subsequence. */
  lemma {:induction false} SubsequenceOmitting<T>(s: seq<T>, i: nat)
    requires i < |s|
    ensures IsSubsequence(s[..i] + s[i + 1..], s)
    decreases |s|
  {
    var a := s[..i] + s[i + 1..];
    if i == |s| - 1 {
      assert a == s[..|s| - 1];
      SubsequenceOfItself(a);
    } else {
      var t := s[..|s| - 1];
      SubsequenceOmitting(t, i);
      assert a[..|a| - 1] == t[..i] + t[i + 1..];
      assert a[|a| - 1] == s[|s| - 1];
    }
  }

  /**
   * The `onended` bookkeeping of lines 613-616: `splice(indexOf(h), 1)` when
   * the index is not -1. Exactly one entry `h` goes, the other entries keep
   * their order; an unregistered `h` changes nothing.
   */
  function Unregister(s: seq<Handle>, h: Handle): (r: seq<Handle>)
    ensures h !in s ==> r == s
    ensures h in s ==> |r| == |s| - 1 && multiset(r) == multiset(s) - multiset{h}
    ensures IsSubsequence(r, s)
    ensures forall x :: x in r ==> x in s
    ensures Distinct(s) ==> Distinct(r) && h !in r
  {
    var i := IndexOf(s, h);
    if i == -1 then SubsequenceOfItself(s); s
    else
      Omitting(s, i);
      s[..i] + s[i + 1..]
  }

  lemma Omitting(s: seq<Handle>, i: nat)
    requires i < |s|
    ensures multiset(s[..i] + s[i + 1..]) == multiset(s) - multiset{s[i]}
    ensures IsSubsequence(s[..i] + s[i + 1..], s)
    ensures Distinct(s) ==> Distinct(s[..i] + s[i + 1..]) && s[i] !in s[..i] + s[i + 1..]
  {
    OmittingMultiset(s, i);
    SubsequenceOmitting(s, i);
    if Distinct(s) {
      OmittingDistinct(s, i);
    }
  }

  lemma OmittingMultiset(s: seq<Handle>, i: nat)
    requires i < |s|
    ensures multiset(s[..i] + s[i + 1..]) == multiset(s) - multiset{s[i]}
  {
    assert s == s[..i] + [s[i]] + s[i + 1..];
    assert multiset(s) == multiset(s[..i]) + multiset{s[i]} + multiset(s[i + 1..]);
  }

  lemma OmittingDistinct(s: seq<Handle>, i: nat)
    requires i < |s| && Distinct(s)
    ensures Distinct(s[..i] + s[i + 1..]) && s[i] !in s[..i] + s[i + 1..]
  {
    var r := s[..i] + s[i + 1..];
    forall k | 0 <= k < |r| ensures r[k] == s[if k < i then k else k + 1] {
    }
    forall a, b | 0 <= a < b < |r| ensures r[a] != r[b] {
      var a', b' := if a < i then a else a + 1, if b < i then b else b + 1;
      assert r[a] == s[a'] && r[b] == s[b'];
    }
    forall k | 0 <= k < |r| ensures r[k] != s[i] {
      var k' := if k < i then k else k + 1;
      assert r[k] == s[k'];
    }
  }

  lemma DistinctOneMore(s: seq<Handle>, n: Handle)
    requires Distinct(s) && n !in s
    ensures Distinct(s + [n])
  {
  }

  lemma HeardOneMore(output: seq<Sound>, x: Sound)
    ensures Heard(output + [x]) == Heard(output) + [x.fragment]
  {
    assert (output + [x])[..|output|] == output;
  }

  lemma TakenOneMore(fates: seq<Fate>, x: Fate)
    ensures Taken(fates + [x]) == Taken(fates) + [x.fragment]
  {
  }

  lemma TakenDrops(fates: seq<Fate>, q: seq<Fragment>)
    ensures Taken(fates + Drops(q)) == Taken(fates) + q
  {
  }

  /** The fragments, in order, of a series of fates. */
  function Taken(fates: seq<Fate>): (r: seq<Fragment>)
    ensures |r| == |fates|
    ensures forall i :: 0 <= i < |fates| ==> r[i] == fates[i].fragment
  {
    if fates == [] then [] else Taken(fates[..|fates| - 1]) + [fates[|fates| - 1].fragment]
  }

  /** The fragments, in order, that were played. */
  function PlayedOf(fates: seq<Fate>): seq<Fragment>
  {
    if fates == [] then []
    else
      var last := fates[|fates| - 1];
      PlayedOf(fates[..|fates| - 1]) + if last.Played? then [last.fragment] else []
  }

  /** The fragments of the started buffers, in start order. */
  function Heard(output: seq<Sound>): (r: seq<Fragment>)
    ensures |r| == |output|
    ensures forall i :: 0 <= i < |output| ==> r[i] == output[i].fragment
  {
    if output == [] then [] else Heard(output[..|output| - 1]) + [output[|output| - 1].fragment]
  }

  /** The fates of the fragments a `clearAudioQueue` discards. */
  function Drops(q: seq<Fragment>): (r: seq<Fate>)
    ensures |r| == |q|
    ensures forall i :: 0 <= i < |q| ==> r[i] == Dropped(q[i])
  {
    if q == [] then [] else Drops(q[..|q| - 1]) + [Dropped(q[|q| - 1])]
  }

  lemma PlayedOfOneMore(fates: seq<Fate>, x: Fate)
    ensures PlayedOf(fates + [x]) == PlayedOf(fates) + if x.Played? then [x.fragment] else []
  {
    assert (fates + [x])[..|fates|] == fates;
  }

  /** Discarded fragments add nothing to what was played. */
  lemma {:induction false} PlayedOfDrops(fates: seq<Fate>, q: seq<Fragment>)
    ensures PlayedOf(fates + Drops(q)) == PlayedOf(fates)
    decreases |q|
  {
    if q == [] {
      assert fates + Drops(q) == fates;
    } else {
      var d := Drops(q[..|q| - 1]);
      PlayedOfDrops(fates, q[..|q| - 1]);
      assert Drops(q) == d + [Dropped(q[|q| - 1])];
      assert fates + Drops(q) == (fates + d) + [Dropped(q[|q| - 1])];
      PlayedOfOneMore(fates + d, Dropped(q[|q| - 1]));
    }
  }

  /** The played fragments are a subsequence of the fragments taken from the queue. */
  lemma {:induction false} PlayedInTakenOrder(fates: seq<Fate>)
    ensures IsSubsequence(PlayedOf(fates), Taken(fates))
    decreases |fates|
  {
    if fates != [] {
      var init := fates[..|fates| - 1];
      var last := fates[|fates| - 1];
      PlayedInTakenOrder(init);
      var p, t := PlayedOf(init), Taken(init);
      assert Taken(fates) == t + [last.fragment];
      assert Taken(fates)[..|Taken(fates)| - 1] == t;
      if last.Played? {
        assert PlayedOf(fates) == p + [last.fragment];
        assert PlayedOf(fates)[..|PlayedOf(fates)| - 1] == p;
      } else {
        assert PlayedOf(fates) == p;
      }
    }
  }

  class PlaybackQueue {
    /** `audioQueue`: fragments waiting for a drain loop. */
    var queue: seq<Fragment>
    /** `isPlayingAudio`: the guard that keeps a second drain loop from starting. */
    var playing: bool
    /** `audioSourceNodes`: the sources registered for `stopAllAudio`. */
    var sources: seq<Handle>
    /** Every buffer started on the output device, in order; `output[h]` was started on source `h`. */
    var output: seq<Sound>
    /** Every `source.stop()` call, in order. */
    var stopCalls: seq<Handle>
    /** Drain loops suspended at line 530 on the `onended` of the source they started. */
    ghost var waiting: set<Handle>
    /** Drain loops whose next step is the loop test at line 527. */
    ghost var pausing: nat
    /** Every fragment ever queued, in order. */
    ghost var enqueued: seq<Fragment>
    /** Every fragment that left the queue, in order, with what became of it. */
    ghost var fates: seq<Fate>

    /** The number of suspended drain loops. */
    ghost function Loops(): nat
      reads this
    {
      |waiting| + pausing
    }

    /** The registry holds distinct started sources, each still awaited by the loop that started it. */
    ghost predicate Registry()
      reads this
    {
      && Distinct(sources)
      && (forall h :: h in sources ==> h in waiting)
      && (forall h :: h in waiting ==> h < |output|)
    }

    /**
     * The queue is first in, first out: what left it, followed by what is in
     * it, is what was queued; and the buffers started are the played fragments.
     */
    ghost predicate History()
      reads this
    {
      && enqueued == Taken(fates) + queue
      && PlayedOf(fates) == Heard(output)
    }

    /** A queued fragment always has a live drain loop that will take it. */
    ghost predicate Valid()
      reads this
    {
      && Registry()
      && History()
      && (queue != [] ==> playing)
      && (playing ==> Loops() > 0)
    }

    /** The flag is a faithful lock: at most one drain loop, and it exists exactly when the flag is set. */
    ghost predicate SingleDrain()
      reads this
    {
      Loops() <= 1 && (playing <==> Loops() == 1)
    }

    /**
     * The running loop took `f` from the queue and either started it on a new
     * source, which it now awaits, or caught its failure and moved on;
     * `parked` is the number of loops at the loop test before this step.
     */
    twostate predicate Attempted(f: Fragment, atob: Fragment -> Option<seq<Pcm.byte>>, parked: nat)
      reads this
    {
      match TryStart(atob, f)
      case Start(samples) =>
        && output == old(output) + [Sound(f, samples)]
        && sources == old(sources) + [|old(output)|]
        && waiting == old(waiting) + {|old(output)|}
        && pausing == parked
        && fates == old(fates) + [Played(f)]
      case Reject(failure) =>
        && output == old(output) && sources == old(sources) && waiting == old(waiting)
        && pausing == parked + 1
        && fates == old(fates) + [Skipped(f, failure)]
    }

    constructor ()
      ensures Valid() && SingleDrain()
      ensures queue == [] && !playing && sources == [] && output == [] && stopCalls == []
      ensures waiting == {} && pausing == 0 && enqueued == [] && fates == []
    {
      queue, playing, sources, output, stopCalls := [], false, [], [], [];
      waiting, pausing, enqueued, fates := {}, 0, [], [];
    }

    /**
     * `queueAudioChunk` (lines 512-518): append `f` at the tail and, when no
     * drain loop holds the guard, start one, which takes `f` at once.
     */
    method Enqueue(f: Fragment, atob: Fragment -> Option<seq<Pcm.byte>>)
      requires Valid()
      modifies this
      ensures Valid()
      ensures enqueued == old(enqueued) + [f] && stopCalls == old(stopCalls)
      ensures old(playing) ==>
        && queue == old(queue) + [f] && playing
        && output == old(output) && sources == old(sources) && fates == old(fates)
        && waiting == old(waiting) && pausing == old(pausing)
      ensures !old(playing) ==> old(queue) == [] && queue == [] && playing && Attempted(f, atob, old(pausing))
      ensures old(SingleDrain()) ==> SingleDrain()
    {
      queue := queue + [f];
      enqueued := enqueued + [f];
      if !playing {
        ProcessQueue(atob);
      }
    }

    /**
     * `processAudioQueue` (lines 520-539) up to its first suspension: it
     * returns at once when the queue is empty or a loop holds the guard;
     * otherwise it takes the guard and starts a loop.
     */
    method ProcessQueue(atob: Fragment -> Option<seq<Pcm.byte>>)
      requires Registry() && History() && (playing ==> Loops() > 0)
      modifies this
      ensures Valid()
      ensures old(queue) == [] || old(playing) ==> unchanged(this)
      ensures old(queue) != [] && !old(playing) ==>
        && playing && queue == old(queue)[1..]
        && enqueued == old(enqueued) && stopCalls == old(stopCalls)
        && Attempted(old(queue)[0], atob, old(pausing))
      ensures old(queue) != [] && !old(playing) && old(Loops()) == 0 ==> SingleDrain()
    {
      if queue == [] || playing {
        return;
      }
      playing := true;
      TakeNext(atob);
    }

    /**
     * One pass of the running loop from the test at line 527 to the next
     * suspension: with an empty queue the loop ends and drops the guard
     * (line 538); otherwise it shifts the head and tries to start it.
     */
    method TakeNext(atob: Fragment -> Option<seq<Pcm.byte>>)
      requires Registry() && History() && (queue != [] ==> playing)
      modifies this
      ensures Valid()
      ensures enqueued == old(enqueued) && stopCalls == old(stopCalls)
      ensures old(queue) == [] ==>
        && queue == [] && !playing
        && output == old(output) && sources == old(sources) && fates == old(fates)
        && waiting == old(waiting) && pausing == old(pausing)
      ensures old(queue) != [] ==>
        playing && queue == old(queue)[1..] && Attempted(old(queue)[0], atob, old(pausing))
      ensures old(Loops()) == 0 && old(playing) ==> SingleDrain()
    {
      if queue == [] {
        playing := false;
        return;
      }
      var f := queue[0];
      assert queue == [f] + queue[1..];
      queue := queue[1..];
      var attempt := TryStart(atob, f);
      if attempt.Start? {
        Begin(f, attempt.samples);
      } else {
        Skip(f, attempt.failure);
      }
    }

    /** The running loop holds `f`, just shifted from the head of the queue. */
    ghost predicate Holding(f: Fragment)
      reads this
    {
      && enqueued == Taken(fates) + [f] + queue
      && PlayedOf(fates) == Heard(output)
    }

    /** `f` is started on a new source, registered, and awaited (lines 602-624). */
    method Begin(f: Fragment, samples: seq<Pcm.Int16>)
      requires Registry() && Holding(f)
      modifies this
      ensures Registry() && History()
      ensures output == old(output) + [Sound(f, samples)]
      ensures sources == old(sources) + [|old(output)|]
      ensures waiting == old(waiting) + {|old(output)|} && Loops() == old(Loops()) + 1
      ensures fates == old(fates) + [Played(f)]
      ensures queue == old(queue) && playing == old(playing) && pausing == old(pausing)
      ensures enqueued == old(enqueued) && stopCalls == old(stopCalls)
    {
      var n := |output|;
      assert n !in waiting && n !in sources;
      DistinctOneMore(sources, n);
      ghost var fates' := fates + [Played(f)];
      var output' := output + [Sound(f, samples)];
      assert Taken(fates') + queue == enqueued by {
        TakenOneMore(fates, Played(f));
      }
      assert PlayedOf(fates') == Heard(output') by {
        PlayedOfOneMore(fates, Played(f));
        HeardOneMore(output, Sound(f, samples));
      }
      output := output';
      sources := sources + [n];
      waiting := waiting + {n};
      fates := fates';
    }

    /** Starting `f` failed; the catch at line 533 lets the loop go on. */
    method Skip(f: Fragment, failure: Failure)
      requires Registry() && Holding(f)
      modifies this
      ensures Registry() && History()
      ensures fates == old(fates) + [Skipped(f, failure)] && pausing == old(pausing) + 1
      ensures Loops() == old(Loops()) + 1
      ensures output == old(output) && sources == old(sources) && waiting == old(waiting)
      ensures queue == old(queue) && playing == old(playing)
      ensures enqueued == old(enqueued) && stopCalls == old(stopCalls)
    {
      PlayedOfOneMore(fates, Skipped(f, failure));
      TakenOneMore(fates, Skipped(f, failure));
      pausing := pausing + 1;
      fates := fates + [Skipped(f, failure)];
    }

    /**
     * A loop at the loop test runs again: its 10 ms pause elapsed, or the
     * failure of its last fragment was caught.
     */
    method Resume(atob: Fragment -> Option<seq<Pcm.byte>>)
      requires Valid() && pausing > 0
      modifies this
      ensures Valid()
      ensures enqueued == old(enqueued) && stopCalls == old(stopCalls)
      ensures old(queue) == [] ==>
        && queue == [] && !playing
        && output == old(output) && sources == old(sources) && fates == old(fates)
        && waiting == old(waiting) && pausing == old(pausing) - 1
      ensures old(queue) != [] ==>
        playing && queue == old(queue)[1..] && Attempted(old(queue)[0], atob, old(pausing) - 1)
      ensures old(SingleDrain()) ==> SingleDrain()
    {
      pausing := pausing - 1;
      TakeNext(atob);
    }

    /**
     * The `onended` of source `h` (lines 611-618): `h` leaves the registry if
     * it is still there, and the loop that awaited it moves on to its pause.
     */
    method SourceEnded(h: Handle)
      requires Valid() && h in waiting
      modifies this
      ensures Valid()
      ensures sources == Unregister(old(sources), h) && h !in sources
      ensures waiting == old(waiting) - {h} && pausing == old(pausing) + 1
      ensures queue == old(queue) && playing == old(playing) && output == old(output)
      ensures stopCalls == old(stopCalls) && enqueued == old(enqueued) && fates == old(fates)
      ensures old(SingleDrain()) ==> SingleDrain()
    {
      var remaining := Unregister(sources, h);
      assert forall x :: x in remaining ==> x in waiting - {h};
      sources := remaining;
      waiting := waiting - {h};
      pausing := pausing + 1;
    }

    /**
     * `clearAudioQueue` (lines 557-560): discard the pending fragments and
     * drop the guard, whatever loop may still be suspended.
     */
    method ClearQueue()
      requires Valid()
      modifies this
      ensures Valid()
      ensures queue == [] && !playing && fates == old(fates) + Drops(old(queue))
      ensures sources == old(sources) && output == old(output) && stopCalls == old(stopCalls)
      ensures waiting == old(waiting) && pausing == old(pausing) && enqueued == old(enqueued)
      ensures old(SingleDrain()) && old(Loops()) == 0 ==> SingleDrain()
    {
      PlayedOfDrops(fates, queue);
      TakenDrops(fates, queue);
      fates := fates + Drops(queue);
      queue := [];
      playing := false;
    }

    /**
     * `stopAllAudio` (lines 542-555): stop every registered source, in
     * registry order, empty the registry, then clear the queue. Once done,
     * doing it again changes nothing.
     */
    method StopAll()
      requires Valid()
      modifies this
      ensures Valid()
      ensures stopCalls == old(stopCalls) + old(sources)
      ensures sources == [] && queue == [] && !playing
      ensures fates == old(fates) + Drops(old(queue))
      ensures output == old(output) && waiting == old(waiting) && pausing == old(pausing)
      ensures enqueued == old(enqueued)
      ensures old(sources) == [] && old(queue) == [] ==> stopCalls == old(stopCalls) && fates == old(fates)
      ensures old(SingleDrain()) && old(Loops()) == 0 ==> SingleDrain()
    {
      var i := 0;
      while i < |sources|
        invariant 0 <= i <= |sources|
        invariant stopCalls == old(stopCalls) + sources[..i]
        invariant sources == old(sources) && queue == old(queue) && playing == old(playing)
        invariant output == old(output) && fates == old(fates) && enqueued == old(enqueued)
        invariant waiting == old(waiting) && pausing == old(pausing)
      {
        stopCalls := stopCalls + [sources[i]];
        i := i + 1;
      }
      assert sources[..i] == sources;
      assert old(sources) == [] ==> stopCalls == old(stopCalls);
      assert Drops([]) == [];
      sources := [];
      ClearQueue();
      assert old(queue) == [] ==> fates == old(fates);
    }

    /** Buffers start in the order their fragments were queued. */
    lemma StartsFollowEnqueueOrder()
      requires Valid()
      ensures IsSubsequence(Heard(output), enqueued)
    {
      PlayedInTakenOrder(fates);
      SubsequenceOfLonger(PlayedOf(fates), Taken(fates), queue);
    }
  }
}
