/** The sliding window of per-frame features (`featureSequence`, an
    `ArrayDeque<FloatArray>`): `offer` at the tail, then one `poll` of the
    head when the deque has grown beyond `maxSeqLen`. */
module FeatureWindow {

  /** `maxSeqLen`: the window's capacity. */
  const MaxSeqLen: nat := 24
  /** `minSeqLen`: the fill level at which classification starts. */
  const MinSeqLen: nat := 24

  /** One `FloatArray` entry; the pipeline always pushes `[ear, mar]`. */
  type Features = seq<real>

  /** The newest `MaxSeqLen` elements of `s`, oldest first. */
  function Last<T>(s: seq<T>): seq<T> {
    if |s| <= MaxSeqLen then s else s[|s| - MaxSeqLen..]
  }

  /** The window after one push: `offer`, then `poll` if it overflows. */
  function Pushed(window: seq<Features>, f: Features): (r: seq<Features>)
    ensures |r| > 0 && r[|r| - 1] == f
    ensures |window| < MaxSeqLen ==> r == window + [f]
    ensures |window| <= MaxSeqLen ==> |r| <= MaxSeqLen
  {
    var offered := window + [f];
    if |offered| > MaxSeqLen then offered[1..] else offered
  }

  /** The window after pushing `fs` in order. */
  function PushAll(window: seq<Features>, fs: seq<Features>): seq<Features>
    decreases |fs|
  {
    if fs == [] then window else Pushed(PushAll(window, fs[..|fs| - 1]), fs[|fs| - 1])
  }

  /** A window of at most capacity keeps the bound after a push, holds the
      pushed entry last, and holds the newest entries of what it held plus
      the new one. */
  lemma PushedIsLast(window: seq<Features>, f: Features)
    requires |window| <= MaxSeqLen
    ensures Pushed(window, f) == Last(window + [f])
    ensures |Pushed(window, f)| == if |window| < MaxSeqLen then |window| + 1 else MaxSeqLen
    ensures Pushed(window, f)[|Pushed(window, f)| - 1] == f
  {
  }

  lemma LastOfLast<T>(s: seq<T>, x: T)
    ensures Last(Last(s) + [x]) == Last(s + [x])
  {
    if |s| > MaxSeqLen {
      assert Last(s) + [x] == (s + [x])[|s| - MaxSeqLen..];
    }
  }

  /** Pushing any number of entries into a window within capacity leaves the
      newest `MaxSeqLen` of all entries seen, oldest first. */
  lemma {:induction false} PushAllIsLast(window: seq<Features>, fs: seq<Features>)
    requires |window| <= MaxSeqLen
    ensures PushAll(window, fs) == Last(window + fs)
  {
    if fs != [] {
      var init, f := fs[..|fs| - 1], fs[|fs| - 1];
      var prev := PushAll(window, init);
      assert PushAll(window, fs) == Pushed(prev, f);
      PushAllIsLast(window, init);
      assert prev == Last(window + init);
      PushedIsLast(prev, f);
      LastOfLast(window + init, f);
      assert window + init + [f] == window + fs;
    }
  }

  /** After k pushes into an empty window it holds exactly the last
      min(k, 24) entries, in the order they were pushed. */
  lemma PushAllFromEmpty(fs: seq<Features>)
    ensures |PushAll([], fs)| == if |fs| < MaxSeqLen then |fs| else MaxSeqLen
    ensures PushAll([], fs) == fs[|fs| - |PushAll([], fs)|..]
  {
    PushAllIsLast([], fs);
    assert [] + fs == fs;
  }
}
