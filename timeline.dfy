/**
 * The clip list and its offset arithmetic: `clips`, `totalLength` and the
 * running `currentStart` that places each clip on the timeline.
 */
module Timeline {

  /** One loaded media file: the record pushed when its metadata arrives. */
  datatype Clip = Clip(name: string, url: string, duration: real, color: string)

  /** `clips.reduce((sum, c) => sum + c.duration, 0)`: a left-to-right running sum. */
  function TotalLength(clips: seq<Clip>): real {
    if clips == [] then 0.0
    else TotalLength(clips[..|clips| - 1]) + clips[|clips| - 1].duration
  }

  /** The sum of the durations, head first: the reference the reduction is checked against. */
  function SumOfDurations(clips: seq<Clip>): real {
    if clips == [] then 0.0 else clips[0].duration + SumOfDurations(clips[1..])
  }

  predicate NonNegativeDurations(clips: seq<Clip>) {
    forall i :: 0 <= i < |clips| ==> clips[i].duration >= 0.0
  }

  /** Appending a clip keeps the durations non-negative exactly when the new one is. */
  lemma NonNegativePush(clips: seq<Clip>, c: Clip)
    ensures NonNegativeDurations(clips + [c]) <==> NonNegativeDurations(clips) && c.duration >= 0.0
  {
    var pushed := clips + [c];
    assert pushed[|clips|] == c;
    assert forall i :: 0 <= i < |clips| ==> pushed[i] == clips[i];
  }

  /** Where clip `i` starts: the durations of the clips before it. */
  function StartOffset(clips: seq<Clip>, i: nat): real
    requires i <= |clips|
  {
    TotalLength(clips[..i])
  }

  lemma TotalLengthEmpty()
    ensures TotalLength([]) == 0.0
  {
  }

  /** Pushing a clip adds exactly its duration. */
  lemma TotalLengthPush(clips: seq<Clip>, c: Clip)
    ensures TotalLength(clips + [c]) == TotalLength(clips) + c.duration
  {
    assert (clips + [c])[..|clips|] == clips;
  }

  lemma {:induction false} TotalLengthConcat(a: seq<Clip>, b: seq<Clip>)
    ensures TotalLength(a + b) == TotalLength(a) + TotalLength(b)
    decreases |b|
  {
    if b == [] {
      assert a + b == a;
    } else {
      var b' := b[..|b| - 1];
      var c := b[|b| - 1];
      assert b == b' + [c];
      assert a + b == (a + b') + [c];
      TotalLengthPush(a + b', c);
      TotalLengthConcat(a, b');
      TotalLengthPush(b', c);
    }
  }

  /** The reduction computes the sum of all durations. */
  lemma {:induction false} TotalLengthIsSum(clips: seq<Clip>)
    ensures TotalLength(clips) == SumOfDurations(clips)
    decreases |clips|
  {
    if clips != [] {
      assert clips == [clips[0]] + clips[1..];
      TotalLengthConcat([clips[0]], clips[1..]);
      assert TotalLength([clips[0]]) == clips[0].duration by {
        assert [clips[0]][..0] == [];
      }
      TotalLengthIsSum(clips[1..]);
    }
  }

  lemma {:induction false} TotalLengthNonNegative(clips: seq<Clip>)
    requires NonNegativeDurations(clips)
    ensures TotalLength(clips) >= 0.0
    decreases |clips|
  {
    if clips != [] {
      TotalLengthNonNegative(clips[..|clips| - 1]);
    }
  }

  /** Each clip starts where the previous one ends. */
  lemma StartOffsetStep(clips: seq<Clip>, i: nat)
    requires i < |clips|
    ensures StartOffset(clips, i + 1) == StartOffset(clips, i) + clips[i].duration
  {
    assert clips[..i + 1] == clips[..i] + [clips[i]];
    TotalLengthPush(clips[..i], clips[i]);
  }

  /** With non-negative durations the offsets never decrease. */
  lemma {:induction false} StartOffsetsNonDecreasing(clips: seq<Clip>, i: nat, j: nat)
    requires NonNegativeDurations(clips)
    requires i <= j <= |clips|
    ensures StartOffset(clips, i) <= StartOffset(clips, j)
    decreases j - i
  {
    if i < j {
      StartOffsetsNonDecreasing(clips, i, j - 1);
      StartOffsetStep(clips, j - 1);
      assert clips[j - 1].duration >= 0.0;
    }
  }

  /** With non-negative durations the offsets never decrease and never pass the total. */
  lemma StartOffsetsMonotone(clips: seq<Clip>, i: nat, j: nat)
    requires NonNegativeDurations(clips)
    requires i <= j <= |clips|
    ensures StartOffset(clips, i) <= StartOffset(clips, j) <= TotalLength(clips)
  {
    StartOffsetsNonDecreasing(clips, i, j);
    StartOffsetsNonDecreasing(clips, j, |clips|);
    assert clips[..|clips|] == clips;
  }

  /** Appending clips never moves an earlier clip. */
  lemma StartOffsetPrefixStable(clips: seq<Clip>, more: seq<Clip>, i: nat)
    requires i <= |clips|
    ensures StartOffset(clips + more, i) == StartOffset(clips, i)
  {
    assert (clips + more)[..i] == clips[..i];
  }

  lemma StartOffsetsPrefixStable(clips: seq<Clip>, more: seq<Clip>)
    ensures forall i :: 0 <= i <= |clips| ==> StartOffset(clips + more, i) == StartOffset(clips, i)
  {
    forall i | 0 <= i <= |clips|
      ensures StartOffset(clips + more, i) == StartOffset(clips, i)
    {
      StartOffsetPrefixStable(clips, more, i);
    }
  }
}
