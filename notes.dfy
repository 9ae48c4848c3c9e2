/** Pitch analysis shared by the two analysis handlers (local-runner/main.py and
    karaoke-recommender/main.py): the table of note names and frequencies, the note nearest a
    frequency, a recording's per-note accuracy scores, and the merging of scores across
    recordings.

    Frequencies and scores are exact reals. The numeric pieces are parameters of the model:
    `freqOf(n)` is the table frequency of semitone n above C0 (round(16.35 * 2 ** (n / 12), 2)),
    and `accuracy(freq, standard)` is 1 - 12 * |log2(freq / standard)|. */
module Notes {
  import opened Common

  const NoteNames: seq<string> := ["C", "C#", "D", "D#", "E", "F", "F#", "G", "G#", "A", "A#", "B"]
  const TableSize: nat := 108

  /** The name of semitone n above C0: the note name followed by the octave digit. */
  function NoteName(n: nat): (name: string)
    requires n < TableSize
  {
    NoteNames[n % 12] + [DigitChar(n / 12)]
  }

  /** A note table: names with their frequencies, in insertion order. */
  type NoteTable = seq<(string, real)>

  /** The table generate_note_frequencies builds: octave 0 to 8, and within an octave the
      twelve names in order, so entry n is semitone n. */
  function NoteFrequencyTable(freqOf: nat -> real): (t: NoteTable)
    ensures |t| == TableSize
    ensures forall n :: 0 <= n < TableSize ==> t[n] == (NoteName(n), freqOf(n))
  {
    seq(TableSize, n requires 0 <= n < TableSize => (NoteName(n), freqOf(n)))
  }

  predicate DistinctKeys(t: NoteTable)
  {
    forall i, j :: 0 <= i < j < |t| ==> t[i].0 != t[j].0
  }

  lemma NoteNamesShape(i: nat)
    requires i < 12
    ensures 1 <= |NoteNames[i]| <= 2
    ensures |NoteNames[i]| == 2 ==> NoteNames[i][1] == '#'
    ensures forall j :: 0 <= j < 12 && j != i ==> NoteNames[j] != NoteNames[i]
  {
  }

  /** Every name is non-empty, and no two semitones share a name, so the table's keys are
      distinct and each is truthy in Python. */
  lemma NoteNamesDistinct(m: nat, n: nat)
    requires m < TableSize && n < TableSize
    ensures NoteName(n) != ""
    ensures NoteName(m) == NoteName(n) ==> m == n
  {
    NoteNamesShape(m % 12);
    NoteNamesShape(n % 12);
    if NoteName(m) == NoteName(n) {
      var a, b := NoteName(m), NoteName(n);
      assert a[|a| - 1] == DigitChar(m / 12) && b[|b| - 1] == DigitChar(n / 12);
      assert DigitValue(DigitChar(m / 12)) == m / 12;
      assert m / 12 == n / 12;
      assert a[..|a| - 1] == NoteNames[m % 12];
      assert b[..|b| - 1] == NoteNames[n % 12];
      assert m % 12 == n % 12;
    }
  }

  lemma NoteTableKeysDistinct(freqOf: nat -> real)
    ensures DistinctKeys(NoteFrequencyTable(freqOf))
    ensures forall n :: 0 <= n < TableSize ==> NoteFrequencyTable(freqOf)[n].0 != ""
  {
    var t := NoteFrequencyTable(freqOf);
    forall i, j | 0 <= i < j < |t| ensures t[i].0 != t[j].0 {
      NoteNamesDistinct(i, j);
    }
    forall n | 0 <= n < TableSize ensures t[n].0 != "" {
      NoteNamesDistinct(n, n);
    }
  }

  /** The octave digit is the last character and the note name the rest: the table names
      every note of every octave once. */
  lemma NoteNameParts(n: nat)
    requires n < TableSize
    ensures NoteName(n)[|NoteName(n)| - 1] == DigitChar(n / 12)
    ensures NoteName(n)[..|NoteName(n)| - 1] == NoteNames[n % 12]
  {
  }

  function Dist(a: real, b: real): real
  {
    if a >= b then a - b else b - a
  }

  /** Entry k is nearest to freq, and no earlier entry is as near. */
  predicate IsFirstClosest(t: NoteTable, freq: real, k: nat)
  {
    && k < |t|
    && (forall j :: 0 <= j < |t| ==> Dist(t[k].1, freq) <= Dist(t[j].1, freq))
    && (forall j :: 0 <= j < k ==> Dist(t[k].1, freq) < Dist(t[j].1, freq))
  }

  /** The first entry of minimal distance to freq: what Python's min with a key returns, and
      what a left-to-right scan that replaces its candidate only on a strictly smaller distance
      ends with. */
  function ClosestIndex(t: NoteTable, freq: real): (k: nat)
    requires |t| > 0
    ensures IsFirstClosest(t, freq, k)
    decreases |t|
  {
    if |t| == 1 then 0
    else
      var k := ClosestIndex(t[..|t| - 1], freq);
      assert IsFirstClosest(t[..|t| - 1], freq, k);
      if Dist(t[|t| - 1].1, freq) < Dist(t[k].1, freq) then |t| - 1 else k
  }

  /** There is only one first-closest entry. */
  lemma FirstClosestUnique(t: NoteTable, freq: real, k1: nat, k2: nat)
    requires IsFirstClosest(t, freq, k1) && IsFirstClosest(t, freq, k2)
    ensures k1 == k2
  {
    assert Dist(t[k1].1, freq) == Dist(t[k2].1, freq);
  }

  /** frequency_to_note: no note for a frequency that is not positive; otherwise the name of
      the first table entry nearest to it. Python's min needs a non-empty table. */
  function FrequencyToNote(t: NoteTable, freq: real): (r: Option<string>)
    requires |t| > 0
    ensures r.None? <==> freq <= 0.0
    ensures r.Some? ==> exists k: nat :: IsFirstClosest(t, freq, k) && r.value == t[k].0
  {
    if freq > 0.0 then Some(t[ClosestIndex(t, freq)].0) else None
  }

  /** One pitch estimate of a recording. */
  datatype Sample = Sample(frequency: real, confidence: real)

  /** The table entry a sample scores: only confident samples (confidence > 0.5) with a
      positive frequency count, and only when the note they map to has a truthy name. */
  function SampleEntry(t: NoteTable, s: Sample): (e: Option<nat>)
    ensures e.Some? ==> e.value < |t| && IsFirstClosest(t, s.frequency, e.value) && t[e.value].0 != ""
    ensures e.Some? <==> |t| > 0 && s.confidence > 0.5 && s.frequency > 0.0 && t[ClosestIndex(t, s.frequency)].0 != ""
  {
    if |t| > 0 && s.confidence > 0.5 && s.frequency > 0.0 then
      var k := ClosestIndex(t, s.frequency);
      if t[k].0 != "" then Some(k) else None
    else None
  }

  /** The accuracies, in sample order, of the samples that score the note. */
  function ScoresFor(t: NoteTable, samples: seq<Sample>, accuracy: (real, real) -> real, note: string): seq<real>
    decreases |samples|
  {
    if samples == [] then []
    else
      var earlier := ScoresFor(t, samples[..|samples| - 1], accuracy, note);
      var s := samples[|samples| - 1];
      var e := SampleEntry(t, s);
      if e.Some? && t[e.value].0 == note then earlier + [accuracy(s.frequency, t[e.value].1)] else earlier
  }

  /** local-runner's calculate_performance: a dict comprehension, so a later sample of a note
      overwrites the score an earlier one set. */
  function LastWinsPerformance(t: NoteTable, samples: seq<Sample>, accuracy: (real, real) -> real): map<string, real>
    decreases |samples|
  {
    if samples == [] then map[]
    else
      var m := LastWinsPerformance(t, samples[..|samples| - 1], accuracy);
      var s := samples[|samples| - 1];
      var e := SampleEntry(t, s);
      if e.None? then m else m[t[e.value].0 := accuracy(s.frequency, t[e.value].1)]
  }

  /** karaoke-recommender's calculate_performance: the first sample of a note sets its score,
      each later one replaces it by the mean of the running value and the new accuracy. */
  function RunningPerformance(t: NoteTable, samples: seq<Sample>, accuracy: (real, real) -> real): map<string, real>
    decreases |samples|
  {
    if samples == [] then map[]
    else
      var m := RunningPerformance(t, samples[..|samples| - 1], accuracy);
      var s := samples[|samples| - 1];
      var e := SampleEntry(t, s);
      if e.None? then m
      else
        var note := t[e.value].0;
        var a := accuracy(s.frequency, t[e.value].1);
        m[note := if note in m then (m[note] + a) / 2.0 else a]
  }

  function Last(xs: seq<real>): real
    requires xs != []
  {
    xs[|xs| - 1]
  }

  /** The running mean: the first value, then each next value averaged with the result so far. */
  function RunningMean(xs: seq<real>): real
    requires xs != []
    decreases |xs|
  {
    if |xs| == 1 then xs[0] else (RunningMean(xs[..|xs| - 1]) + xs[|xs| - 1]) / 2.0
  }

  /** The mean started from zero: each value averaged with the result so far, the first included. */
  function HalvingMean(xs: seq<real>): real
    decreases |xs|
  {
    if xs == [] then 0.0 else (HalvingMean(xs[..|xs| - 1]) + xs[|xs| - 1]) / 2.0
  }

  /** local-runner's performance scores exactly the notes some confident sample maps to, each
      with the accuracy of its last such sample. */
  lemma {:induction false} LastWinsIsLastScore(t: NoteTable, samples: seq<Sample>, accuracy: (real, real) -> real, note: string)
    ensures note in LastWinsPerformance(t, samples, accuracy) <==> ScoresFor(t, samples, accuracy, note) != []
    ensures note in LastWinsPerformance(t, samples, accuracy) ==>
              LastWinsPerformance(t, samples, accuracy)[note] == Last(ScoresFor(t, samples, accuracy, note))
    decreases |samples|
  {
    if samples != [] {
      LastWinsIsLastScore(t, samples[..|samples| - 1], accuracy, note);
    }
  }

  /** karaoke-recommender's performance scores exactly the notes some confident sample maps
      to, each with the running mean of its samples' accuracies in sample order. */
  lemma {:induction false} RunningPerformanceIsRunningMean(t: NoteTable, samples: seq<Sample>, accuracy: (real, real) -> real, note: string)
    ensures note in RunningPerformance(t, samples, accuracy) <==> ScoresFor(t, samples, accuracy, note) != []
    ensures note in RunningPerformance(t, samples, accuracy) ==>
              RunningPerformance(t, samples, accuracy)[note] == RunningMean(ScoresFor(t, samples, accuracy, note))
    decreases |samples|
  {
    if samples != [] {
      var init := samples[..|samples| - 1];
      RunningPerformanceIsRunningMean(t, init, accuracy, note);
      var earlier := ScoresFor(t, init, accuracy, note);
      var scores := ScoresFor(t, samples, accuracy, note);
      if scores != earlier && earlier != [] {
        assert scores[..|scores| - 1] == earlier;
      }
    }
  }

  /** A user's per-note scores. */
  type Performance = map<string, real>

  /** local-runner's merge of one recording's scores into the combined scores:
      combined[note] = (combined.get(note, 0) + score) / 2. */
  function MergeHalving(combined: Performance, perf: Performance): (r: Performance)
    ensures r.Keys == combined.Keys + perf.Keys
  {
    map k | k in combined.Keys + perf.Keys ::
      if k in perf then ((if k in combined then combined[k] else 0.0) + perf[k]) / 2.0 else combined[k]
  }

  /** karaoke-recommender's merge: a note's first score is stored as is, a later one is
      averaged with the stored value. */
  function MergeFirstKept(combined: Performance, perf: Performance): (r: Performance)
    ensures r.Keys == combined.Keys + perf.Keys
  {
    map k | k in combined.Keys + perf.Keys ::
      if k in perf then (if k in combined then (combined[k] + perf[k]) / 2.0 else perf[k]) else combined[k]
  }

  /** The combined scores after merging each recording's scores in turn, the local way. */
  function CombineHalving(start: Performance, perfs: seq<Performance>): Performance
    decreases |perfs|
  {
    if perfs == [] then start else MergeHalving(CombineHalving(start, perfs[..|perfs| - 1]), perfs[|perfs| - 1])
  }

  /** The combined scores after merging each recording's scores in turn, the karaoke way. */
  function CombineFirstKept(start: Performance, perfs: seq<Performance>): Performance
    decreases |perfs|
  {
    if perfs == [] then start else MergeFirstKept(CombineFirstKept(start, perfs[..|perfs| - 1]), perfs[|perfs| - 1])
  }

  /** The scores a note received, recording by recording, in order. */
  function NoteScores(perfs: seq<Performance>, note: string): seq<real>
    decreases |perfs|
  {
    if perfs == [] then []
    else
      var earlier := NoteScores(perfs[..|perfs| - 1], note);
      if note in perfs[|perfs| - 1] then earlier + [perfs[|perfs| - 1][note]] else earlier
  }

  /** Merging the local way from nothing: a note is combined exactly when some recording
      scored it, and its value is the halving mean of its scores, so a note scored once
      keeps only half of that score. */
  lemma {:induction false} CombineHalvingIsHalvingMean(perfs: seq<Performance>, note: string)
    ensures note in CombineHalving(map[], perfs) <==> NoteScores(perfs, note) != []
    ensures note in CombineHalving(map[], perfs) ==>
              CombineHalving(map[], perfs)[note] == HalvingMean(NoteScores(perfs, note))
    decreases |perfs|
  {
    if perfs != [] {
      var init := perfs[..|perfs| - 1];
      CombineHalvingIsHalvingMean(init, note);
      var earlier := NoteScores(init, note);
      var scores := NoteScores(perfs, note);
      if note in perfs[|perfs| - 1] {
        assert scores[..|scores| - 1] == earlier;
        if earlier == [] {
          assert HalvingMean(earlier) == 0.0;
        }
      }
    }
  }

  /** Merging the karaoke way from nothing: a note is combined exactly when some recording
      scored it, and its value is the running mean of its scores, the first kept as is. */
  lemma {:induction false} CombineFirstKeptIsRunningMean(perfs: seq<Performance>, note: string)
    ensures note in CombineFirstKept(map[], perfs) <==> NoteScores(perfs, note) != []
    ensures note in CombineFirstKept(map[], perfs) ==>
              CombineFirstKept(map[], perfs)[note] == RunningMean(NoteScores(perfs, note))
    decreases |perfs|
  {
    if perfs != [] {
      var init := perfs[..|perfs| - 1];
      CombineFirstKeptIsRunningMean(init, note);
      var earlier := NoteScores(init, note);
      var scores := NoteScores(perfs, note);
      if note in perfs[|perfs| - 1] && earlier != [] {
        assert scores[..|scores| - 1] == earlier;
      }
    }
  }

  /** Merging in two batches is merging the concatenation: the local runner's document loop
      and its file loop grow the same combined scores. */
  lemma {:induction false} CombineHalvingAppend(start: Performance, a: seq<Performance>, b: seq<Performance>)
    ensures CombineHalving(CombineHalving(start, a), b) == CombineHalving(start, a + b)
    decreases |b|
  {
    if b != [] {
      CombineHalvingAppend(start, a, b[..|b| - 1]);
      assert (a + b)[..|a + b| - 1] == a + b[..|b| - 1];
    } else {
      assert a + b == a;
    }
  }
}
