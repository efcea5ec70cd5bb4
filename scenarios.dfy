/**
 * Runs of the playback queue that the audio handling of static/script.js
 * can go through, checked step by step against the contracts of
 * Playback.PlaybackQueue.
 */
module Scenarios {
  import opened Common
  import opened Playback
  import Pcm

  /** A decoder under which every fragment is one silent sample. */
  function Silence(f: Fragment): Option<seq<Pcm.byte>> {
    Some([0, 0])
  }

  lemma SilenceStarts(f: Fragment)
    ensures TryStart(Silence, f) == Start([0])
  {
    var r := Pcm.Samples([0, 0]);
    assert r.Ok? && |r.value| == 1 && r.value[0] == Pcm.Word(0, 0);
  }

  /** The first fragment, queued on an idle queue, starts at once on source 0. */
  method FirstPlaying() returns (q: PlaybackQueue)
    ensures fresh(q) && q.Valid() && q.SingleDrain()
    ensures q.queue == [] && q.playing
    ensures q.sources == [0] && q.waiting == {0} && q.pausing == 0
    ensures q.output == [Sound("a", [0])] && q.fates == [Played("a")] && q.stopCalls == []
  {
    SilenceStarts("a");
    q := new PlaybackQueue();
    q.Enqueue("a", Silence);
  }

  /** The first fragment plays and two more wait behind it. */
  method TwoWaiting() returns (q: PlaybackQueue)
    ensures fresh(q) && q.Valid() && q.SingleDrain()
    ensures q.queue == ["b", "c"] && q.playing
    ensures q.sources == [0] && q.waiting == {0} && q.pausing == 0
    ensures q.output == [Sound("a", [0])] && q.fates == [Played("a")] && q.stopCalls == []
  {
    q := FirstPlaying();
    q.Enqueue("b", Silence);
    q.Enqueue("c", Silence);
  }

  /**
   * Barge-in (`input_audio_buffer.speech_started`, lines 242-246): while the
   * first fragment plays and two more wait, `stopAllAudio` stops the one
   * source and drops both waiting fragments. When the stopped source reports
   * its end, the old loop finds the queue empty and ends: nothing more is heard.
   */
  method BargeIn() returns (q: PlaybackQueue)
    ensures fresh(q) && q.Valid() && q.SingleDrain()
    ensures q.stopCalls == [0]
    ensures q.output == [Sound("a", [0])]
    ensures q.fates == [Played("a"), Dropped("b"), Dropped("c")]
    ensures q.queue == [] && q.sources == [] && !q.playing && q.Loops() == 0
  {
    q := TwoWaiting();
    q.StopAll();
    assert q.fates == [Played("a")] + [Dropped("b"), Dropped("c")];
    assert q.waiting == {0} && q.pausing == 0 && q.stopCalls == [0];
    q.SourceEnded(0);
    assert q.waiting == {} && q.pausing == 1 && q.queue == [];
    q.Resume(Silence);
  }

  /**
   * A barge-in in the middle of a drain leaves its loop suspended on the
   * stopped source while the guard is dropped, so the next fragment starts a
   * second loop.
   */
  method RestartAfterStop() returns (q: PlaybackQueue)
    ensures fresh(q) && q.Valid()
    ensures q.output == [Sound("a", [0]), Sound("b", [0])] && q.stopCalls == [0]
    ensures q.sources == [1] && q.waiting == {0, 1} && q.pausing == 0
    ensures q.queue == [] && q.playing
  {
    SilenceStarts("b");
    q := FirstPlaying();
    q.StopAll();
    assert q.sources == [] && q.waiting == {0} && !q.playing;
    q.Enqueue("b", Silence);
  }

  /**
   * Once the old loop of `RestartAfterStop` wakes, it takes a fragment too:
   * two buffers play at once, both registered, and the guard no longer means
   * a single loop.
   */
  method OverlapAfterStop() returns (q: PlaybackQueue)
    ensures fresh(q) && q.Valid() && !q.SingleDrain()
    ensures q.output == [Sound("a", [0]), Sound("b", [0]), Sound("c", [0])]
    ensures q.stopCalls == [0]
    ensures q.sources == [1, 2] && q.waiting == {1, 2} && q.Loops() == 2
  {
    SilenceStarts("c");
    q := RestartAfterStop();
    assert 0 !in q.sources;
    q.SourceEnded(0);
    q.Enqueue("c", Silence);
    q.Resume(Silence);
  }
}
