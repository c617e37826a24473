/** Energy-based voice activity detection: which frames form an utterance and when it is dispatched. */
module Vad {
  import opened Common

  const SPEECH_RMS_THRESHOLD: nat := 500

  const SILENCE_DURATION_MS: nat := 800

  const MIN_SPEECH_DURATION_MS: nat := 500

  const NANOS_PER_MS: nat := 1_000_000

  /**
   * One frame of samples, with the clock readings (in nanoseconds) taken while handling it: when a
   * start is noted, when the silence is measured and when the speech is measured.
   */
  datatype Frame = Frame(samples: seq<Sample>, noted: nat, silenceRead: nat, speechRead: nat)

  /** The clock never runs backwards, within a frame or between frames. */
  predicate Clocked(frames: seq<Frame>) {
    && (forall f | f in frames :: f.noted <= f.silenceRead <= f.speechRead)
    && (forall i, j | 0 <= i < j < |frames| :: frames[i].noted <= frames[j].noted)
  }

  function Square(s: int): nat {
    assert s * s >= 0;
    s * s
  }

  function SumSquares(samples: seq<Sample>): nat {
    if samples == [] then 0 else SumSquares(samples[..|samples| - 1]) + Square(samples[|samples| - 1])
  }

  /** The root mean square exceeds the threshold. */
  predicate Loud(f: Frame) {
    SumSquares(f.samples) > SPEECH_RMS_THRESHOLD * SPEECH_RMS_THRESHOLD * |f.samples|
  }

  /** compute_rms against the threshold. */
  method IsLoud(f: Frame) returns (loud: bool)
    ensures loud == Loud(f)
  {
    var sum := 0;
    for i := 0 to |f.samples|
      invariant sum == SumSquares(f.samples[..i])
    {
      sum := sum + f.samples[i] * f.samples[i];
      assert f.samples[..i + 1][..i] == f.samples[..i];
    }
    assert f.samples[..|f.samples|] == f.samples;
    loud := f.samples != [] && sum > SPEECH_RMS_THRESHOLD * SPEECH_RMS_THRESHOLD * |f.samples|;
  }

  // ---- What loudness means ----

  function Magnitude(s: Sample): nat {
    var m: int := s;
    if m < 0 then -m else m
  }

  /** No sample is louder than the threshold. */
  predicate Faint(f: Frame) {
    forall s | s in f.samples :: Magnitude(s) <= SPEECH_RMS_THRESHOLD
  }

  /** Every sample is louder than the threshold. */
  predicate Strong(f: Frame) {
    f.samples != [] && forall s | s in f.samples :: Magnitude(s) > SPEECH_RMS_THRESHOLD
  }

  lemma SquareGrows(s: Sample, t: Sample)
    requires Magnitude(s) <= Magnitude(t)
    ensures Square(s) <= Square(t)
  {
    var m, n := Magnitude(s), Magnitude(t);
    assert Square(s) == m * m && Square(t) == n * n;
    assert m * m <= m * n <= n * n;
  }

  lemma SquareAgainstThreshold(s: Sample)
    ensures Square(s) > SPEECH_RMS_THRESHOLD * SPEECH_RMS_THRESHOLD <==> Magnitude(s) > SPEECH_RMS_THRESHOLD
  {
    if Magnitude(s) > SPEECH_RMS_THRESHOLD {
      SquareGrows(501, s);
    } else {
      SquareGrows(s, 500);
    }
  }

  lemma {:induction false} SquaresFaint(samples: seq<Sample>)
    requires forall s | s in samples :: Magnitude(s) <= SPEECH_RMS_THRESHOLD
    ensures SumSquares(samples) <= SPEECH_RMS_THRESHOLD * SPEECH_RMS_THRESHOLD * |samples|
  {
    hide Square, Magnitude;
    if samples != [] {
      var n := |samples| - 1;
      SquaresFaint(samples[..n]);
      SquareAgainstThreshold(samples[n]);
    }
  }

  lemma {:induction false} SquaresStrong(samples: seq<Sample>)
    requires forall s | s in samples :: Magnitude(s) > SPEECH_RMS_THRESHOLD
    ensures SumSquares(samples) >= (SPEECH_RMS_THRESHOLD * SPEECH_RMS_THRESHOLD + 1) * |samples|
  {
    hide Square, Magnitude;
    if samples != [] {
      var n := |samples| - 1;
      SquaresStrong(samples[..n]);
      SquareAgainstThreshold(samples[n]);
    }
  }

  lemma {:induction false} SquaresUpdated(samples: seq<Sample>, i: nat, x: Sample)
    requires i < |samples|
    ensures SumSquares(samples[i := x]) + Square(samples[i]) == SumSquares(samples) + Square(x)
  {
    hide Square;
    var n := |samples| - 1;
    if i < n {
      SquaresUpdated(samples[..n], i, x);
      assert samples[i := x][..n] == samples[..n][i := x];
    } else {
      assert samples[i := x][..n] == samples[..n];
    }
  }

  /** A frame that never leaves the threshold is quiet, the empty frame included. */
  lemma FaintIsQuiet(f: Frame)
    requires Faint(f)
    ensures !Loud(f)
  {
    SquaresFaint(f.samples);
  }

  /** A frame that is never within the threshold is loud. */
  lemma StrongIsLoud(f: Frame)
    requires Strong(f)
    ensures Loud(f)
  {
    SquaresStrong(f.samples);
  }

  /** Raising the magnitude of a sample never makes a loud frame quiet. */
  lemma LouderStaysLoud(f: Frame, i: nat, x: Sample)
    requires Loud(f) && i < |f.samples| && Magnitude(f.samples[i]) <= Magnitude(x)
    ensures Loud(f.(samples := f.samples[i := x]))
  {
    hide Square, SumSquares, Magnitude;
    SquaresUpdated(f.samples, i, x);
    SquareGrows(f.samples[i], x);
  }

  /** Loud means that the root mean square lies above the threshold. */
  lemma LoudIsRms(f: Frame, rms: real)
    requires f.samples != [] && rms >= 0.0
    requires rms * rms * |f.samples| as real == SumSquares(f.samples) as real
    ensures Loud(f) <==> rms > SPEECH_RMS_THRESHOLD as real
  {
    hide SumSquares;
    var n, t := |f.samples| as real, SPEECH_RMS_THRESHOLD as real;
    assert Loud(f) <==> rms * rms * n > t * t * n;
    RealScale(rms * rms, t * t, n);
    RealSquare(rms, t);
  }

  lemma RealSquare(a: real, b: real)
    requires a >= 0.0 && b > 0.0
    ensures a * a > b * b <==> a > b
  {
    if a <= b {
      assert a * a <= a * b <= b * b;
    } else {
      RealScale(a, b, a);
      RealScale(a, b, b);
    }
  }

  lemma RealScale(a: real, b: real, n: real)
    requires n > 0.0
    ensures a * n > b * n <==> a > b
  {
  }

  function ElapsedMs(since: nat, now: nat): nat {
    if now < since then 0 else (now - since) / NANOS_PER_MS
  }

  /** Elapsed milliseconds count whole milliseconds of a clock that did not run backwards. */
  lemma ElapsedMeaning(since: nat, now: nat, ms: nat)
    requires ms > 0
    ensures ElapsedMs(since, now) >= ms <==> now >= since + ms * NANOS_PER_MS
  {
  }

  datatype Vad = Vad(speaking: bool, silenceStart: Option<nat>, speechStart: Option<nat>, audio: seq<Sample>)

  const IDLE := Vad(false, None, None, [])

  datatype Outcome = Nothing | Dispatched(audio: seq<Sample>) | Discarded

  /** What one frame does to the detector. */
  function Step(v: Vad, f: Frame): (Vad, Outcome) {
    if Loud(f) then
      (Vad(true, None, if v.speaking then v.speechStart else Some(f.noted), v.audio + f.samples), Nothing)
    else if !v.speaking then (v, Nothing)
    else
      var audio := v.audio + f.samples;
      var start := if v.silenceStart.Some? then v.silenceStart.value else f.noted;
      if ElapsedMs(start, f.silenceRead) < SILENCE_DURATION_MS then
        (v.(audio := audio, silenceStart := Some(start)), Nothing)
      else
        var spoken := if v.speechStart.Some? then ElapsedMs(v.speechStart.value, f.speechRead) else 0;
        if spoken >= MIN_SPEECH_DURATION_MS && audio != [] then (IDLE, Dispatched(audio))
        else (IDLE, Discarded)
  }

  datatype CallState = Listening | Processing | Speaking

  datatype Line = Phone | Web

  /** Whether a frame is listened to: a web call only while listening, a phone call unless processing. */
  predicate Hears(line: Line, state: CallState) {
    match line
    case Web => state == Listening
    case Phone => state != Processing
  }

  /** The session fields that the media branches of both kinds of call update in place. */
  class CallSession {
    const line: Line
    var state: CallState
    var isSpeaking: bool
    var silenceStart: Option<nat>
    var speechStart: Option<nat>
    var speechAudio: seq<Sample>

    function Detector(): Vad
      reads this
    {
      Vad(isSpeaking, silenceStart, speechStart, speechAudio)
    }

    constructor (line: Line)
      ensures this.line == line && state == Listening && Detector() == IDLE
    {
      this.line := line;
      state := Listening;
      isSpeaking := false;
      silenceStart := None;
      speechStart := None;
      speechAudio := [];
    }

    /** The media branch for one frame; a dispatch leaves the session listening. */
    method OnFrame(f: Frame) returns (outcome: Outcome)
      modifies this
      ensures state == if outcome.Dispatched? then Listening else old(state)
      ensures Hears(line, old(state)) ==> (Detector(), outcome) == Step(old(Detector()), f)
      ensures !Hears(line, old(state)) ==> Detector() == old(Detector()) && outcome == Nothing
    {
      outcome := Nothing;
      if line == Web && state != Listening {
        return;
      }
      if line == Phone && state == Processing {
        return;
      }
      var loud := IsLoud(f);
      if loud {
        if !isSpeaking {
          isSpeaking := true;
          speechStart := Some(f.noted);
          silenceStart := None;
        }
        speechAudio := speechAudio + f.samples;
        silenceStart := None;
      } else if isSpeaking {
        speechAudio := speechAudio + f.samples;
        if silenceStart.None? {
          silenceStart := Some(f.noted);
        }
        if ElapsedMs(silenceStart.value, f.silenceRead) >= SILENCE_DURATION_MS {
          var spoken := if speechStart.Some? then ElapsedMs(speechStart.value, f.speechRead) else 0;
          if spoken >= MIN_SPEECH_DURATION_MS && speechAudio != [] {
            outcome := Dispatched(speechAudio);
            speechAudio := [];
            isSpeaking := false;
            silenceStart := None;
            speechStart := None;
            state := Processing;
            state := Listening;
          } else {
            outcome := Discarded;
            speechAudio := [];
            isSpeaking := false;
            silenceStart := None;
            speechStart := None;
          }
        }
      }
    }

    /** The receive loop over a call's frames. */
    method OnFrames(frames: seq<Frame>) returns (utterances: seq<seq<Sample>>, discards: nat)
      requires Hears(line, state) && Detector() == IDLE
      modifies this
      ensures Hears(line, state)
      ensures Run(Detector(), utterances, discards) == RunTo(frames, |frames|)
    {
      hide Step;
      utterances, discards := [], 0;
      for k := 0 to |frames|
        invariant Hears(line, state)
        invariant Run(Detector(), utterances, discards) == RunTo(frames, k)
      {
        var outcome := OnFrame(frames[k]);
        match outcome {
          case Nothing =>
          case Dispatched(audio) => utterances := utterances + [audio];
          case Discarded => discards := discards + 1;
        }
      }
    }
  }

  datatype Run = Run(vad: Vad, utterances: seq<seq<Sample>>, discards: nat)

  /** The detector after the first k frames, and what it sent on. */
  function RunTo(frames: seq<Frame>, k: nat): Run
    requires k <= |frames|
  {
    if k == 0 then Run(IDLE, [], 0)
    else
      var before := RunTo(frames, k - 1);
      var (v, outcome) := Step(before.vad, frames[k - 1]);
      match outcome
      case Nothing => Run(v, before.utterances, before.discards)
      case Dispatched(audio) => Run(v, before.utterances + [audio], before.discards)
      case Discarded => Run(v, before.utterances, before.discards + 1)
  }

  /** A call that never leaves the threshold sends nothing and leaves the detector idle. */
  lemma {:induction false} FaintCallSendsNothing(frames: seq<Frame>, k: nat)
    requires k <= |frames|
    requires forall f | f in frames :: Faint(f)
    ensures RunTo(frames, k) == Run(IDLE, [], 0)
  {
    hide Loud, Faint;
    if k > 0 {
      FaintCallSendsNothing(frames, k - 1);
      FaintIsQuiet(frames[k - 1]);
    }
  }

  // ---- Utterances, without the detector ----

  /** All samples of frames a .. b-1. */
  function Joined(frames: seq<Frame>, a: nat, b: nat): seq<Sample>
    requires a <= b <= |frames|
    decreases b
  {
    if a == b then [] else Joined(frames, a, b - 1) + frames[b - 1].samples
  }

  predicate QuietBetween(frames: seq<Frame>, a: nat, b: nat) {
    forall i | a <= i < b && i < |frames| :: !Loud(frames[i])
  }

  /** The first frame of the silence that frame j belongs to, in an utterance opened at a. */
  function SilenceFrom(frames: seq<Frame>, a: nat, j: nat): (q: nat)
    requires a < j < |frames|
    ensures a < q <= j
    decreases j
  {
    if j - 1 == a || Loud(frames[j - 1]) then j else SilenceFrom(frames, a, j - 1)
  }

  /** At frame j the silence has lasted long enough to end an utterance opened at a. */
  predicate SilenceOver(frames: seq<Frame>, a: nat, j: nat) {
    && a < j < |frames| && !Loud(frames[j])
    && ElapsedMs(frames[SilenceFrom(frames, a, j)].noted, frames[j].silenceRead) >= SILENCE_DURATION_MS
  }

  /** A loud frame opened an utterance at a and no silence was long enough before frame k. */
  predicate OpenSince(frames: seq<Frame>, a: nat, k: nat) {
    a < k <= |frames| && Loud(frames[a]) && forall j | a < j < k :: !SilenceOver(frames, a, j)
  }

  datatype Segment = Segment(start: nat, end: nat)

  /** An utterance: opened by a loud frame, ended by the first frame at which the silence is over. */
  predicate IsUtterance(frames: seq<Frame>, s: Segment) {
    && s.start + 1 < s.end <= |frames|
    && OpenSince(frames, s.start, s.end - 1)
    && SilenceOver(frames, s.start, s.end - 1)
  }

  function EndOf(segments: seq<Segment>, i: nat): nat
    requires i <= |segments|
  {
    if i == 0 then 0 else segments[i - 1].end
  }

  /** The i-th utterance starts at the first loud frame after the previous one. */
  predicate Follows(frames: seq<Frame>, segments: seq<Segment>, i: nat)
    requires i < |segments|
  {
    && EndOf(segments, i) <= segments[i].start
    && QuietBetween(frames, EndOf(segments, i), segments[i].start)
    && IsUtterance(frames, segments[i])
  }

  /** How the first k frames divide into utterances and, perhaps, one that is still open. */
  ghost predicate Divided(frames: seq<Frame>, k: nat, segments: seq<Segment>, open: Option<nat>) {
    && k <= |frames|
    && (forall i | 0 <= i < |segments| :: Follows(frames, segments, i))
    && EndOf(segments, |segments|) <= k
    && match open
       case None => QuietBetween(frames, EndOf(segments, |segments|), k)
       case Some(a) =>
         EndOf(segments, |segments|) <= a && QuietBetween(frames, EndOf(segments, |segments|), a) && OpenSince(frames, a, k)
  }

  /** What the detector holds and has sent, in terms of the division. */
  ghost predicate Holds(frames: seq<Frame>, k: nat, segments: seq<Segment>, open: Option<nat>, r: Run)
    requires Divided(frames, k, segments, open)
  {
    && r.discards == 0
    && |r.utterances| == |segments|
    && (forall i | 0 <= i < |segments| :: Carries(frames, segments, i, r.utterances[i]))
    && match open
       case None => r.vad == IDLE
       case Some(a) =>
         && r.vad.speaking && r.vad.audio == Joined(frames, a, k)
         && r.vad.speechStart == Some(frames[a].noted)
         && r.vad.silenceStart ==
            (if k - 1 == a || Loud(frames[k - 1]) then None else Some(frames[SilenceFrom(frames, a, k - 1)].noted))
  }

  predicate Carries(frames: seq<Frame>, segments: seq<Segment>, i: nat, audio: seq<Sample>)
    requires i < |segments|
  {
    segments[i].start <= segments[i].end <= |frames| && audio == Joined(frames, segments[i].start, segments[i].end)
  }

  lemma LoudIsNonEmpty(f: Frame)
    ensures Loud(f) ==> f.samples != []
  {
  }

  lemma {:induction false} JoinedNonEmpty(frames: seq<Frame>, a: nat, b: nat)
    requires a < b <= |frames| && Loud(frames[a])
    ensures Joined(frames, a, b) != []
    decreases b
  {
    LoudIsNonEmpty(frames[a]);
    if b > a + 1 {
      JoinedNonEmpty(frames, a, b - 1);
    }
  }

  /** The end-of-silence test always finds at least the minimum of speech: nothing is discarded. */
  lemma SpeechLongEnough(frames: seq<Frame>, a: nat, k: nat)
    requires Clocked(frames) && SilenceOver(frames, a, k)
    ensures ElapsedMs(frames[a].noted, frames[k].speechRead) >= MIN_SPEECH_DURATION_MS
  {
  }

  /** One loud frame. */
  lemma LoudStep(frames: seq<Frame>, k: nat, segments: seq<Segment>, open: Option<nat>, r: Run)
    requires Clocked(frames) && k < |frames| && Loud(frames[k])
    requires Divided(frames, k, segments, open) && Holds(frames, k, segments, open, r)
    ensures var open2 := if open.None? then Some(k) else open;
            && Divided(frames, k + 1, segments, open2)
            && Holds(frames, k + 1, segments, open2, Run(Step(r.vad, frames[k]).0, r.utterances, r.discards))
            && Step(r.vad, frames[k]).1 == Nothing
  {
    hide Loud, Follows, Carries, SilenceFrom;
    if open.None? {
      assert Joined(frames, k, k) == [];
    }
  }

  /** One quiet frame that does not end an utterance. */
  lemma QuietStep(frames: seq<Frame>, k: nat, segments: seq<Segment>, open: Option<nat>, r: Run)
    requires Clocked(frames) && k < |frames| && !Loud(frames[k])
    requires Divided(frames, k, segments, open) && Holds(frames, k, segments, open, r)
    requires open.Some? ==> !SilenceOver(frames, open.value, k)
    ensures && Divided(frames, k + 1, segments, open)
            && Holds(frames, k + 1, segments, open, Run(Step(r.vad, frames[k]).0, r.utterances, r.discards))
            && Step(r.vad, frames[k]).1 == Nothing
  {
    hide Loud, Follows, Carries;
  }

  /** One quiet frame that ends the open utterance. */
  lemma EndStep(frames: seq<Frame>, k: nat, segments: seq<Segment>, a: nat, r: Run)
    requires Clocked(frames) && k < |frames|
    requires Divided(frames, k, segments, Some(a)) && Holds(frames, k, segments, Some(a), r)
    requires SilenceOver(frames, a, k)
    ensures var more := segments + [Segment(a, k + 1)];
            && Divided(frames, k + 1, more, None)
            && Step(r.vad, frames[k]) == (IDLE, Dispatched(Joined(frames, a, k + 1)))
            && Holds(frames, k + 1, more, None, Run(IDLE, r.utterances + [Joined(frames, a, k + 1)], r.discards))
  {
    EndDispatches(frames, k, segments, a, r);
    FollowsMore(frames, segments, a, k);
    CarriesMore(frames, segments, r.utterances, a, k + 1);
    hide Loud, Carries, Follows, Step, Joined, SilenceFrom, SilenceOver, OpenSince;
  }

  lemma EndDispatches(frames: seq<Frame>, k: nat, segments: seq<Segment>, a: nat, r: Run)
    requires Clocked(frames) && k < |frames|
    requires Divided(frames, k, segments, Some(a)) && Holds(frames, k, segments, Some(a), r)
    requires SilenceOver(frames, a, k)
    ensures Step(r.vad, frames[k]) == (IDLE, Dispatched(Joined(frames, a, k + 1)))
  {
    hide Loud, Carries, Follows;
    SpeechLongEnough(frames, a, k);
    JoinedNonEmpty(frames, a, k + 1);
  }

  lemma FollowsMore(frames: seq<Frame>, segments: seq<Segment>, a: nat, k: nat)
    requires forall i | 0 <= i < |segments| :: Follows(frames, segments, i)
    requires EndOf(segments, |segments|) <= a && QuietBetween(frames, EndOf(segments, |segments|), a)
    requires k < |frames| && OpenSince(frames, a, k) && SilenceOver(frames, a, k)
    ensures var more := segments + [Segment(a, k + 1)];
            forall i | 0 <= i < |more| :: Follows(frames, more, i)
  {
    hide Loud, SilenceOver;
    var more := segments + [Segment(a, k + 1)];
    forall i | 0 <= i < |more| ensures Follows(frames, more, i) {
      assert EndOf(more, i) == EndOf(segments, i);
      if i < |segments| {
        assert Follows(frames, segments, i);
      }
    }
  }

  lemma CarriesMore(frames: seq<Frame>, segments: seq<Segment>, utterances: seq<seq<Sample>>, a: nat, b: nat)
    requires a <= b <= |frames| && |utterances| == |segments|
    requires forall i | 0 <= i < |segments| :: Carries(frames, segments, i, utterances[i])
    ensures var more, sent := segments + [Segment(a, b)], utterances + [Joined(frames, a, b)];
            forall i | 0 <= i < |more| :: Carries(frames, more, i, sent[i])
  {
  }

  /**
   * Over every clocked frame sequence the utterances sent are, in order, the gap-free frames of the
   * division's segments, the buffer is the gap-free rest since the opening loud frame, and nothing
   * is ever discarded as too short.
   */
  lemma {:induction false} RunDivides(frames: seq<Frame>, k: nat) returns (segments: seq<Segment>, open: Option<nat>)
    requires Clocked(frames) && k <= |frames|
    ensures Divided(frames, k, segments, open)
    ensures Holds(frames, k, segments, open, RunTo(frames, k))
    decreases k
  {
    if k == 0 {
      segments, open := [], None;
    } else {
      segments, open := RunDivides(frames, k - 1);
      hide Divided, Holds, Step, Loud, SilenceOver;
      var r := RunTo(frames, k - 1);
      if Loud(frames[k - 1]) {
        LoudStep(frames, k - 1, segments, open, r);
        open := if open.None? then Some(k - 1) else open;
      } else if open.Some? && SilenceOver(frames, open.value, k - 1) {
        EndStep(frames, k - 1, segments, open.value, r);
        segments, open := segments + [Segment(open.value, k)], None;
      } else {
        QuietStep(frames, k - 1, segments, open, r);
      }
    }
  }

  // ---- The division is unique ----

  lemma FirstLoud(frames: seq<Frame>, from: nat, a: nat, b: nat)
    requires from <= a < |frames| && from <= b < |frames|
    requires QuietBetween(frames, from, a) && QuietBetween(frames, from, b)
    requires Loud(frames[a]) && Loud(frames[b])
    ensures a == b
  {
  }

  lemma SameUtterance(frames: seq<Frame>, s: Segment, t: Segment)
    requires IsUtterance(frames, s) && IsUtterance(frames, t) && s.start == t.start
    ensures s == t
  {
  }

  lemma {:induction false} DivisionPrefix(frames: seq<Frame>, k: nat, s: seq<Segment>, so: Option<nat>,
                                          t: seq<Segment>, to: Option<nat>, i: nat)
    requires Divided(frames, k, s, so) && Divided(frames, k, t, to)
    requires i <= |s| && i <= |t|
    ensures s[..i] == t[..i]
  {
    hide Loud, SilenceOver;
    if i > 0 {
      DivisionPrefix(frames, k, s, so, t, to, i - 1);
      assert Follows(frames, s, i - 1) && Follows(frames, t, i - 1);
      assert EndOf(s, i - 1) == EndOf(t, i - 1) by {
        if i > 1 {
          assert s[..i - 1][i - 2] == t[..i - 1][i - 2];
        }
      }
      FirstLoud(frames, EndOf(s, i - 1), s[i - 1].start, t[i - 1].start);
      SameUtterance(frames, s[i - 1], t[i - 1]);
      assert s[..i] == s[..i - 1] + [s[i - 1]] && t[..i] == t[..i - 1] + [t[i - 1]];
    }
  }

  /** Once both divisions agree on the utterances of the shorter one, the other has no more. */
  lemma NoFurtherUtterance(frames: seq<Frame>, k: nat, s: seq<Segment>, so: Option<nat>, t: seq<Segment>, to: Option<nat>)
    requires Divided(frames, k, s, so) && Divided(frames, k, t, to)
    ensures |t| <= |s|
  {
    hide Loud, SilenceOver;
    if |s| < |t| {
      var i := |s|;
      DivisionPrefix(frames, k, s, so, t, to, i);
      assert s == s[..i];
      assert EndOf(t, i) == EndOf(s, i) by {
        if i > 0 {
          assert s[..i][i - 1] == t[..i][i - 1];
        }
      }
      assert Follows(frames, t, i);
      EndsWithin(frames, k, t, to, i);
      if so.Some? {
        FirstLoud(frames, EndOf(s, i), so.value, t[i].start);
      }
      assert false;
    }
  }

  lemma {:induction false} EndsWithin(frames: seq<Frame>, k: nat, t: seq<Segment>, to: Option<nat>, i: nat)
    requires Divided(frames, k, t, to) && i < |t|
    ensures t[i].end <= k
    decreases |t| - i
  {
    hide Loud, SilenceOver;
    if i + 1 < |t| {
      EndsWithin(frames, k, t, to, i + 1);
      assert Follows(frames, t, i + 1);
    }
  }

  /** Frames divide into utterances in exactly one way. */
  lemma DivisionUnique(frames: seq<Frame>, k: nat, s: seq<Segment>, so: Option<nat>, t: seq<Segment>, to: Option<nat>)
    requires Divided(frames, k, s, so) && Divided(frames, k, t, to)
    ensures s == t && so == to
  {
    hide Loud, SilenceOver, Follows;
    NoFurtherUtterance(frames, k, s, so, t, to);
    NoFurtherUtterance(frames, k, t, to, s, so);
    DivisionPrefix(frames, k, s, so, t, to, |s|);
    assert s == s[..|s|] && t == t[..|t|];
    if so.Some? && to.Some? {
      FirstLoud(frames, EndOf(s, |s|), so.value, to.value);
    }
  }
}
