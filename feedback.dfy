/**
 * Feedback messages and the session summary of the backend
 * (`backend/app/core/feedback.py`).
 */
module Feedback {
  import opened Numeric

  /** The three messages for each stability level. */
  const Messages: map<string, seq<string>> := map[
    "stable" := [
      "Excellent! Your hand is very steady.",
      "Great control! Keep it up.",
      "Perfect stability. Try moving to the next target."],
    "warning" := [
      "Good, but try to steady your hand a bit more.",
      "Almost there! Slow down slightly.",
      "Take a breath and relax your grip."],
    "unstable" := [
      "Try anchoring your wrist on the table.",
      "Slow down and focus on control.",
      "Take a short break if needed."]]

  /** `messages.get(stability_level, messages["warning"])`. */
  function LevelMessages(level: string): (ms: seq<string>)
    ensures |ms| == 3
    ensures level in Messages ==> ms == Messages[level]
    ensures level !in Messages ==> ms == Messages["warning"]
  {
    if level in Messages then Messages[level] else Messages["warning"]
  }

  /**
   * `int(jitter) % len(level_messages)`: Python's `int` truncates toward zero
   * and its `%` by a positive divisor is never negative, as Dafny's is.
   */
  function MessageIndex(jitter: real, count: nat): (index: int)
    requires 0 < count
    ensures 0 <= index < count
  {
    Trunc(jitter) % count
  }

  /** `get_feedback_message(stability_level, jitter)`. */
  function FeedbackMessage(level: string, jitter: real): (message: string)
    ensures message in LevelMessages(level)
  {
    var ms := LevelMessages(level);
    ms[MessageIndex(jitter, |ms|)]
  }

  /** A level that is not one of the three known ones gets the warning messages. */
  lemma UnknownLevelFallsBackToWarning(level: string, jitter: real)
    requires level != "stable" && level != "warning" && level != "unstable"
    ensures FeedbackMessage(level, jitter) == FeedbackMessage("warning", jitter)
    ensures FeedbackMessage(level, jitter) in Messages["warning"]
  {
    assert level !in Messages;
  }

  /** A jitter below 1 picks the first message of the level. */
  lemma SmallJitterPicksFirst(level: string, jitter: real)
    requires 0.0 <= jitter < 1.0
    ensures FeedbackMessage(level, jitter) == LevelMessages(level)[0]
  {
    assert Trunc(jitter) == 0;
  }

  /** For non-negative jitter, adding 3 to it keeps the index among 3 messages. */
  lemma IndexCycle(jitter: real)
    requires 0.0 <= jitter
    ensures MessageIndex(jitter + 3.0, 3) == MessageIndex(jitter, 3)
  {
    assert (jitter + 3.0).Floor == jitter.Floor + 3;
    assert Trunc(jitter + 3.0) == Trunc(jitter) + 3;
  }

  /** For non-negative jitter the messages repeat every 3 units of jitter. */
  lemma MessagesCycle(level: string, jitter: real)
    requires 0.0 <= jitter
    ensures FeedbackMessage(level, jitter + 3.0) == FeedbackMessage(level, jitter)
  {
    IndexCycle(jitter);
  }

  /** `get_session_summary(...)` without the rounding to one decimal for display. */
  datatype SessionSummary = SessionSummary(
    averageStability: real,
    durationSeconds: real,
    accuracy: real,
    targetsCompleted: int,
    totalTargets: int,
    feedback: string)

  const SummaryFeedback: string := "Session complete! Review your results above."

  /** `targets_hit / max(total_targets, 1) * 100`: never a division by zero. */
  function Accuracy(targetsHit: int, totalTargets: int): real {
    targetsHit as real / (Max(totalTargets, 1) as real) * 100.0
  }

  /** The accuracy is a percentage when no more targets are hit than there are; with no targets it is 100 per hit. */
  lemma AccuracyBounds(targetsHit: int, totalTargets: int)
    ensures 0 <= targetsHit <= totalTargets ==> 0.0 <= Accuracy(targetsHit, totalTargets) <= 100.0
    ensures totalTargets <= 0 ==> Accuracy(targetsHit, totalTargets) == targetsHit as real * 100.0
    ensures 0 < totalTargets && targetsHit == totalTargets ==> Accuracy(targetsHit, totalTargets) == 100.0
  {
    if 0 <= targetsHit <= totalTargets {
      var n := Max(totalTargets, 1) as real;
      var q := targetsHit as real / n;
      DivMonotone(0.0, targetsHit as real, n);
      DivMonotone(targetsHit as real, n, n);
      assert n / n == 1.0;
      assert 0.0 <= q <= 1.0;
      assert Accuracy(targetsHit, totalTargets) == q * 100.0;
    }
  }

  /** `get_session_summary`: the counts are echoed unchanged, with the fixed closing message. */
  function SessionSummaryOf(avgStability: real, totalTime: real, targetsHit: int, totalTargets: int): (s: SessionSummary)
    ensures s.targetsCompleted == targetsHit && s.totalTargets == totalTargets
    ensures s.accuracy == Accuracy(targetsHit, totalTargets)
    ensures s.averageStability == avgStability && s.durationSeconds == totalTime
    ensures 0 <= targetsHit <= totalTargets ==> 0.0 <= s.accuracy <= 100.0
    ensures 0 < totalTargets && targetsHit == totalTargets ==> s.accuracy == 100.0
  {
    AccuracyBounds(targetsHit, totalTargets);
    SessionSummary(avgStability, totalTime, Accuracy(targetsHit, totalTargets), targetsHit, totalTargets, SummaryFeedback)
  }
}
