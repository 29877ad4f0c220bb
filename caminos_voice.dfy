/** Voice guidance of the Caminos variant: an utterance queue kept in
    priority order (high, then normal, then low, arrival order within a
    priority), and the single text read for a whole route. As in the main
    variant, what is handed to the synthesiser is recorded in
    `synthesized`. */
module CaminosVoice {
  import opened Common
  import opened Geo
  import opened Sorting
  import opened StateManager
  import opened Voice
  import VoiceNavigation

  // ---------------------------------------------------------------------
  // Priority order

  /** The rank used by the queue's comparator; a missing priority is normal. */
  function RankOf(s: Speech): real {
    match s.priority
    case Some(High) => 0.0
    case Some(Low) => 2.0
    case _ => 1.0
  }

  /** Enqueueing: the queue is sorted by rank again, so it stays ordered,
      holds the same utterances plus the new one, and the new one comes
      after every utterance already queued with its rank. */
  lemma Enqueued(q: seq<Speech>, u: Speech)
    ensures SortedBy(SortByKey(q + [u], RankOf), RankOf)
    ensures multiset(SortByKey(q + [u], RankOf)) == multiset(q) + multiset{u}
    ensures WithKey(SortByKey(q + [u], RankOf), RankOf, RankOf(u)) == WithKey(q, RankOf, RankOf(u)) + [u]
  {
    SortByKeySorted(q + [u], RankOf);
    SortByKeyStable(q + [u], RankOf, RankOf(u));
    WithKeyAppend(q, u, RankOf, RankOf(u));
  }

  // ---------------------------------------------------------------------
  // The text read for a route

  /** The step distance as read here: kilometres above 1000 m, otherwise
      metres rounded to one. */
  function StepDistance(meters: real): SpokenDistance {
    if meters > 1000.0 then Kilometres(meters / 1000.0) else Metres(Round(meters))
  }

  /** The two variants read a distance the same way except between 100 m
      and 1000 m, where the main one rounds to tens. */
  lemma StepDistanceAgrees(meters: real)
    ensures StepDistance(meters) == VoiceNavigation.DistanceBucket(meters) <==>
      (!(100.0 < meters <= 1000.0) || Round(meters) % 10 == 0)
  {
    if 100.0 < meters <= 1000.0 {
      var n := Round(meters / 10.0);
      assert n as real - 0.5 <= meters / 10.0 < n as real + 0.5;
      if Round(meters) % 10 == 0 {
        var k := Round(meters) / 10;
        assert Round(meters) == 10 * k;
        assert 10.0 * k as real - 0.5 <= meters < 10.0 * k as real + 0.5;
        assert k == n;
      }
    }
  }

  const Opening1 := "Iniciando navegaci\U{f3}n. Ruta de "
  const Closing := "Fin de las instrucciones. Ha llegado a su destino."

  /** The opening: length in kilometres to one decimal and duration in
      whole minutes. */
  function Opening(route: Route): string {
    Opening1 + Fixed1(route.summary.totalDistance / 1000.0) + " kil\U{f3}metros. Duraci\U{f3}n estimada: "
      + IntToString(Round(route.summary.totalTime / 60.0)) + " minutos. "
  }

  /** The segment for the step at `index`: its number from 1, its text and
      its distance. */
  function Segment(index: nat, step: Instruction, clean: string -> string): string {
    "Paso " + NatToString(index + 1) + ": " + clean(step.text) + " en "
      + SpokenText(StepDistance(step.distance)) + ". "
  }

  /** The segments of the steps, in order. */
  function Segments(steps: seq<Instruction>, clean: string -> string): string {
    if steps == [] then ""
    else Segments(steps[..|steps| - 1], clean) + Segment(|steps| - 1, steps[|steps| - 1], clean)
  }

  /** The segments of the first steps come first: adding steps only
      extends the text. */
  lemma {:induction false} SegmentsPrefix(steps: seq<Instruction>, k: nat, clean: string -> string)
    requires k <= |steps|
    ensures StartsWith(Segments(steps, clean), Segments(steps[..k], clean))
    decreases |steps| - k
  {
    if k < |steps| {
      SegmentsPrefix(steps, k + 1, clean);
      assert steps[..k + 1][..k] == steps[..k];
      PrefixThroughAppend(Segments(steps, clean), Segments(steps[..k], clean), Segment(k, steps[k], clean));
    } else {
      assert steps[..k] == steps;
    }
  }

  /** A text that starts with `a + x` starts with `a`. */
  lemma PrefixThroughAppend(t: string, a: string, x: string)
    requires StartsWith(t, a + x)
    ensures StartsWith(t, a)
  {
    assert t[..|a|] == (a + x)[..|a|];
  }

  /** One pass of the `+=` loop keeps `text == start + Segments(prefix)`. */
  lemma AppendSegment(start: string, steps: seq<Instruction>, i: nat, clean: string -> string, text: string)
    requires i < |steps| && text == start + Segments(steps[..i], clean)
    ensures text + Segment(i, steps[i], clean) == start + Segments(steps[..i + 1], clean)
  {
    var p := steps[..i + 1];
    assert p[..i] == steps[..i] && p[i] == steps[i];
    assert Segments(p, clean) == Segments(p[..i], clean) + Segment(i, p[i], clean);
    ConcatAssoc(start, Segments(steps[..i], clean), Segment(i, steps[i], clean));
  }

  /** The `forEach` of `speakInstructions`: the segment of each step is
      added to the text, in order. */
  method AppendSegments(start: string, steps: seq<Instruction>, clean: string -> string)
    returns (instructionText: string)
    ensures instructionText == start + Segments(steps, clean)
  {
    instructionText := start;
    for index := 0 to |steps|
      invariant instructionText == start + Segments(steps[..index], clean)
    {
      AppendSegment(start, steps, index, clean, instructionText);
      instructionText := instructionText + Segment(index, steps[index], clean);
    }
    assert steps[..|steps|] == steps;
  }

  /** The text `speakInstructions` builds: the opening, one segment per
      step in order, and the closing sentence. */
  method InstructionText(route: Route, clean: string -> string) returns (instructionText: string)
    ensures instructionText == Opening(route) + Segments(route.instructions, clean) + Closing
  {
    instructionText := AppendSegments(Opening(route), route.instructions, clean);
    instructionText := instructionText + Closing;
  }

  // ---------------------------------------------------------------------
  // The utterance queue

  class Speaker {
    /** Whether the browser offers speech synthesis at all. */
    var synthAvailable: bool
    var isSpeaking: bool
    var currentSpeech: Option<Speech>
    var voiceQueue: seq<Speech>
    /** Every utterance handed to the synthesiser, in order. */
    var synthesized: seq<Speech>

    constructor(synthAvailable: bool)
      ensures this.synthAvailable == synthAvailable && !isSpeaking && currentSpeech.None?
      ensures voiceQueue == [] && synthesized == []
    {
      this.synthAvailable := synthAvailable;
      isSpeaking := false;
      currentSpeech := None;
      voiceQueue := [];
      synthesized := [];
    }

    /** `speak`: nothing without synthesis. While an utterance is playing,
        or for a low-priority one, the utterance is queued and the queue
        sorted by rank; otherwise it is spoken at once. The utterance is
        returned either way. */
    method Speak(text: string, priority: Option<Priority>) returns (u: Option<Speech>)
      modifies this
      ensures !synthAvailable ==>
        u.None? && voiceQueue == old(voiceQueue) && synthesized == old(synthesized)
        && isSpeaking == old(isSpeaking) && currentSpeech == old(currentSpeech)
      ensures synthAvailable ==> u == Some(Speech(text, priority))
      ensures synthAvailable && (old(isSpeaking) || priority == Some(Low)) ==>
        voiceQueue == SortByKey(old(voiceQueue) + [Speech(text, priority)], RankOf)
        && synthesized == old(synthesized) && isSpeaking == old(isSpeaking)
        && currentSpeech == old(currentSpeech)
      ensures synthAvailable && !(old(isSpeaking) || priority == Some(Low)) ==>
        isSpeaking && currentSpeech == Some(Speech(text, priority)) && voiceQueue == old(voiceQueue)
        && synthesized == old(synthesized) + [Speech(text, priority)]
      ensures synthAvailable == old(synthAvailable)
    {
      if !synthAvailable {
        return None;
      }
      var utterance := Speech(text, priority);
      if isSpeaking || priority == Some(Low) {
        voiceQueue := SortByKey(voiceQueue + [utterance], RankOf);
      } else {
        isSpeaking := true;
        currentSpeech := Some(utterance);
        synthesized := synthesized + [utterance];
      }
      u := Some(utterance);
    }

    /** `processQueue`: when idle, the head of the queue is taken off and
        spoken, and the speaker is busy again. */
    method ProcessQueue()
      modifies this
      ensures old(voiceQueue) != [] && !old(isSpeaking) ==>
        voiceQueue == old(voiceQueue)[1..] && isSpeaking && currentSpeech == Some(old(voiceQueue)[0])
        && synthesized == old(synthesized) + [old(voiceQueue)[0]]
      ensures !(old(voiceQueue) != [] && !old(isSpeaking)) ==>
        voiceQueue == old(voiceQueue) && isSpeaking == old(isSpeaking)
        && currentSpeech == old(currentSpeech) && synthesized == old(synthesized)
      ensures synthAvailable == old(synthAvailable)
    {
      if |voiceQueue| > 0 && !isSpeaking {
        var next := voiceQueue[0];
        voiceQueue := voiceQueue[1..];
        isSpeaking := true;
        currentSpeech := Some(next);
        synthesized := synthesized + [next];
      }
    }

    /** The end (or error) event: nothing is playing, then the queue moves on. */
    method OnEnd()
      modifies this
      ensures old(voiceQueue) != [] ==>
        voiceQueue == old(voiceQueue)[1..] && isSpeaking && currentSpeech == Some(old(voiceQueue)[0])
        && synthesized == old(synthesized) + [old(voiceQueue)[0]]
      ensures old(voiceQueue) == [] ==>
        voiceQueue == [] && !isSpeaking && currentSpeech.None? && synthesized == old(synthesized)
      ensures synthAvailable == old(synthAvailable)
    {
      isSpeaking := false;
      currentSpeech := None;
      ProcessQueue();
    }

    /** `stopSpeaking`: whatever the synthesiser is doing, the queue is
        emptied, nothing is playing and the app state records voice off. */
    method StopSpeaking(store: Store) returns (notified: seq<Notification>)
      modifies this, store
      ensures !isSpeaking && currentSpeech.None? && voiceQueue == []
      ensures synthesized == old(synthesized) && synthAvailable == old(synthAvailable)
      ensures store.state == old(store.state) + map[VozActiva := FlagVal(false)]
      ensures store.listeners == old(store.listeners)
      ensures notified == Notify(store.listeners, store.state, Some(old(store.state)))
    {
      isSpeaking := false;
      currentSpeech := None;
      voiceQueue := [];
      notified := store.Set(map[VozActiva := FlagVal(false)]);
    }

    /** `clearQueue`: the queue is emptied and nothing else changes. */
    method ClearQueue()
      modifies this
      ensures voiceQueue == []
      ensures isSpeaking == old(isSpeaking) && currentSpeech == old(currentSpeech)
      ensures synthesized == old(synthesized) && synthAvailable == old(synthAvailable)
    {
      voiceQueue := [];
    }

    /** `speakInstructions`: without synthesis or without a current route
        nothing happens. Otherwise speech is stopped and the whole route
        text is spoken at once, ahead of an empty queue. */
    method SpeakInstructions(store: Store, clean: string -> string)
      modifies this, store
      ensures !old(synthAvailable) || CurrentRouteOf(old(store.state)).None? ==>
        voiceQueue == old(voiceQueue) && synthesized == old(synthesized)
        && isSpeaking == old(isSpeaking) && store.state == old(store.state)
      ensures old(synthAvailable) && CurrentRouteOf(old(store.state)).Some? ==>
        var text := Opening(CurrentRouteOf(old(store.state)).value)
          + Segments(CurrentRouteOf(old(store.state)).value.instructions, clean) + Closing;
        synthesized == old(synthesized) + [Speech(text, None)]
        && isSpeaking && currentSpeech == Some(Speech(text, None)) && voiceQueue == []
        && store.state == old(store.state) + map[VozActiva := FlagVal(false)]
      ensures synthAvailable == old(synthAvailable)
    {
      if !synthAvailable {
        return;
      }
      var currentRoute := CurrentRouteOf(store.state);
      if currentRoute.None? {
        return;
      }
      var _ := StopSpeaking(store);
      var instructionText := InstructionText(currentRoute.value, clean);
      var _ := Speak(instructionText, None);
    }
  }
}
