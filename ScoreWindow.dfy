/** The trailing window of episode scores kept by the training driver: a
    `deque(maxlen=100)` of rewards, its mean, and the rule that declares the
    environment solved. Scores are modelled as reals, not floats. */
module ScoreWindow {

  /** Capacity of the trailing window. */
  const WindowSize: nat := 100

  /** Window mean at (or above) which the environment counts as solved. */
  const SolvedScore: real := 13.0

  /** A bounded deque never holds more entries than its `maxlen`. */
  type Window = w: seq<real> | |w| <= WindowSize

  function Sum(s: seq<real>): real
  {
    if s == [] then 0.0 else Sum(s[..|s| - 1]) + s[|s| - 1]
  }

  /** The mean of a non-empty window. */
  function Mean(w: seq<real>): real
    requires |w| > 0
  {
    Sum(w) / (|w| as real)
  }

  /** The early-stop test: the mean of whatever the window holds reaches the
      threshold. There is no minimum number of entries. */
  predicate Solved(w: seq<real>)
  {
    |w| > 0 && Mean(w) >= SolvedScore
  }

  /** `append` on a bounded deque: when the deque is full its leftmost (oldest)
      entry is dropped before the new one goes in on the right. */
  function Append(w: Window, x: real): (r: Window)
    ensures |r| == if |w| < WindowSize then |w| + 1 else WindowSize
    ensures r[|r| - 1] == x
    ensures r[..|r| - 1] == w[|w| + 1 - |r|..]
  {
    if |w| < WindowSize then w + [x] else w[1..] + [x]
  }

  /** The last min(|scores|, 100) entries of a score history, in order. */
  function Last(scores: seq<real>): Window
  {
    if |scores| <= WindowSize then scores else scores[|scores| - WindowSize..]
  }

  /** The window is the suffix of the history of length min(|scores|, 100). */
  lemma LastIsSuffix(scores: seq<real>)
    ensures var r := Last(scores);
            && |r| == (if |scores| < WindowSize then |scores| else WindowSize)
            && scores == scores[..|scores| - |r|] + r
  {
  }

  /** The window obtained by appending every score of a history, in order, to
      an initially empty deque. */
  function Fill(scores: seq<real>): Window
  {
    if scores == [] then [] else Append(Fill(scores[..|scores| - 1]), scores[|scores| - 1])
  }

  /** Appending a score to the window of a history gives the window of the
      extended history. */
  lemma AppendSlides(scores: seq<real>, x: real)
    ensures Append(Last(scores), x) == Last(scores + [x])
  {
    var n := |scores|;
    if n >= WindowSize {
      assert Last(scores)[1..] == scores[n - WindowSize + 1..];
      assert (scores + [x])[n + 1 - WindowSize..] == scores[n - WindowSize + 1..] + [x];
    }
  }

  /** After i appends the deque holds exactly the last min(i, 100) scores, in
      episode order; older scores have been dropped from the front. */
  lemma {:induction false} FillKeepsLast(scores: seq<real>)
    ensures Fill(scores) == Last(scores)
    ensures |Fill(scores)| == if |scores| < WindowSize then |scores| else WindowSize
  {
    if scores != [] {
      var init := scores[..|scores| - 1];
      FillKeepsLast(init);
      AppendSlides(init, scores[|scores| - 1]);
      assert init + [scores[|scores| - 1]] == scores;
    }
  }
}
