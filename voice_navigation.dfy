/** Voice guidance of the main application: the spoken form of a distance,
    the list of sentences read for a route, and a first-in first-out
    utterance queue that a high-priority utterance bypasses. The speech
    synthesiser is outside the model: what is handed to it is recorded in
    `synthesized`, and its start and end events are methods. */
module VoiceNavigation {
  import opened Common
  import opened Geo
  import opened StateManager
  import opened Voice

  // ---------------------------------------------------------------------
  // Distances as spoken

  /** The unit and rounding `formatDistance` chooses. */
  function DistanceBucket(meters: real): SpokenDistance {
    if meters > 1000.0 then Kilometres(meters / 1000.0)
    else if meters > 100.0 then Metres(Round(meters / 10.0) * 10)
    else Metres(Round(meters))
  }

  /** Kilometres above 1000 m, metres rounded to a multiple of ten above
      100 m, otherwise metres rounded to the nearest whole metre. */
  lemma DistanceBuckets(meters: real)
    ensures DistanceBucket(meters).Kilometres? <==> meters > 1000.0
    ensures DistanceBucket(meters).Kilometres? ==> DistanceBucket(meters).km == meters / 1000.0
    ensures 100.0 < meters <= 1000.0 ==>
      DistanceBucket(meters).m % 10 == 0
      && meters - 5.0 < DistanceBucket(meters).m as real <= meters + 5.0
    ensures meters <= 100.0 ==> meters - 0.5 < DistanceBucket(meters).m as real <= meters + 0.5
  {
  }

  function FormatDistance(meters: real): string {
    SpokenText(DistanceBucket(meters))
  }

  // ---------------------------------------------------------------------
  // The sentences read for a route

  const ClosingLine := "Ha llegado a su destino. Buen viaje."

  /** The three opening sentences: length in kilometres to one decimal,
      duration in whole minutes, and the general direction. */
  function Header(route: Route): seq<string> {
    ["Iniciando navegaci\U{f3}n. Ruta de " + Fixed1(route.summary.totalDistance / 1000.0) + " kil\U{f3}metros.",
     "Duraci\U{f3}n estimada: " + IntToString(Round(route.summary.totalTime / 60.0)) + " minutos.",
     "Siga las instrucciones paso a paso."]
  }

  /** The sentence for one step: turns and roundabouts are flagged, the
      arrival is celebrated, the others give the distance. `clean` is the
      text clean-up applied to the router's wording. */
  function StepText(step: Instruction, clean: string -> string): string {
    var cleanText := clean(step.text);
    var distance := FormatDistance(step.distance);
    if Contains(step.kind, "Turn") || Contains(step.kind, "Roundabout") then
      "\U{26A0}\U{FE0F} " + cleanText + " en " + distance
    else if step.kind == "DestinationReached" then "\U{1F389} " + cleanText
    else cleanText + " en " + distance
  }

  /** A step after the first and shorter than 50 m is joined to the
      sentence before it. */
  predicate Merges(steps: seq<Instruction>, i: nat)
    requires i < |steps|
  {
    steps[i].distance < 50.0 && i > 0
  }

  /** The number of steps that get a sentence of their own. */
  function Kept(steps: seq<Instruction>): (n: nat)
    ensures steps != [] ==> n >= 1
    ensures n <= |steps|
  {
    if steps == [] then 0
    else Kept(steps[..|steps| - 1]) + (if Merges(steps, |steps| - 1) then 0 else 1)
  }

  /** A short step's clean text joined to the sentence before it. */
  function JoinShort(prev: string, step: Instruction, clean: string -> string): string {
    prev + " y " + Lower(clean(step.text))
  }

  /** The step sentences, built step by step from the first. */
  function Entries(steps: seq<Instruction>, clean: string -> string): (r: seq<string>)
    ensures |r| == Kept(steps)
  {
    if steps == [] then []
    else
      var e := Entries(steps[..|steps| - 1], clean);
      var step := steps[|steps| - 1];
      if Merges(steps, |steps| - 1) then
        e[..|e| - 1] + [JoinShort(e[|e| - 1], step, clean)]
      else e + [StepText(step, clean)]
  }

  /** When no step is short, every step has its own sentence, in order. */
  lemma {:induction false} NoShortSteps(steps: seq<Instruction>, clean: string -> string)
    requires forall i :: 0 <= i < |steps| ==> steps[i].distance >= 50.0
    ensures |Entries(steps, clean)| == |steps|
    ensures forall i :: 0 <= i < |steps| ==> Entries(steps, clean)[i] == StepText(steps[i], clean)
  {
    if steps != [] {
      var n := |steps| - 1;
      var p := steps[..n];
      NoShortSteps(p, clean);
      var e := Entries(p, clean);
      EntriesStep(steps, n, clean, e);
      assert steps[..n + 1] == steps;
      forall i | 0 <= i < |steps| ensures Entries(steps, clean)[i] == StepText(steps[i], clean) {
        if i < n {
          assert p[i] == steps[i];
        }
      }
    }
  }

  /** One more step of the loop, stated on the prefix it has covered. */
  lemma EntriesStep(steps: seq<Instruction>, i: nat, clean: string -> string, e: seq<string>)
    requires i < |steps| && e == Entries(steps[..i], clean)
    ensures Merges(steps, i) ==> e != [] && Entries(steps[..i + 1], clean) == e[..|e| - 1] + [JoinShort(e[|e| - 1], steps[i], clean)]
    ensures !Merges(steps, i) ==> Entries(steps[..i + 1], clean) == e + [StepText(steps[i], clean)]
  {
    assert steps[..i + 1][..i] == steps[..i];
  }

  /** One pass of the loop keeps `instructions == start + Entries(prefix)`. */
  lemma PushStep(start: seq<string>, steps: seq<Instruction>, i: nat, clean: string -> string,
                 instructions: seq<string>, next: seq<string>)
    requires i < |steps| && instructions == start + Entries(steps[..i], clean)
    requires Merges(steps, i) ==>
      instructions != [] && next == instructions[|instructions| - 1 := JoinShort(instructions[|instructions| - 1], steps[i], clean)]
    requires !Merges(steps, i) ==> next == instructions + [StepText(steps[i], clean)]
    ensures next == start + Entries(steps[..i + 1], clean)
  {
    var e := Entries(steps[..i], clean);
    EntriesStep(steps, i, clean, e);
    if Merges(steps, i) {
      ReplaceLast(start, e, JoinShort(e[|e| - 1], steps[i], clean));
    } else {
      ConcatAssoc(start, e, [StepText(steps[i], clean)]);
    }
  }

  /** Overwriting the last slot of `start + e` overwrites the last of `e`. */
  lemma ReplaceLast<T>(start: seq<T>, e: seq<T>, x: T)
    requires e != []
    ensures |start + e| >= 1
    ensures (start + e)[|start + e| - 1 := x] == start + (e[..|e| - 1] + [x])
  {
  }

  /** The `forEach` over the steps of `prepareInstructions`: each step's
      sentence is pushed after the sentences already there, or, for a
      short step after the first, joined to the last of them. */
  method PushStepSentences(start: seq<string>, steps: seq<Instruction>, clean: string -> string)
    returns (instructions: seq<string>)
    ensures instructions == start + Entries(steps, clean)
  {
    instructions := start;
    for index := 0 to |steps|
      invariant instructions == start + Entries(steps[..index], clean)
    {
      var step := steps[index];
      var next;
      if step.distance < 50.0 && index > 0 {
        EntriesStep(steps, index, clean, Entries(steps[..index], clean));
        var prevInstruction := instructions[|instructions| - 1];
        next := instructions[|instructions| - 1 := JoinShort(prevInstruction, step, clean)];
      } else {
        next := instructions + [StepText(step, clean)];
      }
      PushStep(start, steps, index, clean, instructions, next);
      instructions := next;
    }
    assert steps[..|steps|] == steps;
  }

  /** `prepareInstructions`: the header, one sentence per step with short
      steps merged into the one before, and the closing line; so there are
      four sentences more than steps kept on their own. */
  method PrepareInstructions(route: Route, clean: string -> string) returns (instructions: seq<string>)
    ensures instructions == Header(route) + Entries(route.instructions, clean) + [ClosingLine]
    ensures |instructions| == 4 + Kept(route.instructions)
    ensures instructions[..3] == Header(route) && instructions[|instructions| - 1] == ClosingLine
  {
    instructions := PushStepSentences(Header(route), route.instructions, clean);
    instructions := instructions + [ClosingLine];
  }

  // ---------------------------------------------------------------------
  // The utterance queue

  class Speaker {
    /** False when the synthesiser is missing or failed to initialise. */
    var isVoiceEnabled: bool
    var isSpeaking: bool
    var currentSpeech: Option<Speech>
    var voiceQueue: seq<Speech>
    /** Every utterance handed to the synthesiser, in order. */
    var synthesized: seq<Speech>

    constructor(isVoiceEnabled: bool)
      ensures this.isVoiceEnabled == isVoiceEnabled && !isSpeaking && currentSpeech.None?
      ensures voiceQueue == [] && synthesized == []
    {
      this.isVoiceEnabled := isVoiceEnabled;
      isSpeaking := false;
      currentSpeech := None;
      voiceQueue := [];
      synthesized := [];
    }

    /** `speak`: nothing without voice. While an utterance is playing, one
        that is not high priority joins the end of the queue and nothing is
        returned; otherwise the utterance goes to the synthesiser at once. */
    method Speak(text: string, priority: Option<Priority>) returns (u: Option<Speech>)
      modifies this
      ensures !isVoiceEnabled ==> u.None? && voiceQueue == old(voiceQueue) && synthesized == old(synthesized)
      ensures isVoiceEnabled && isSpeaking && priority != Some(High) ==>
        u.None? && voiceQueue == old(voiceQueue) + [Speech(text, priority)] && synthesized == old(synthesized)
      ensures isVoiceEnabled && !(isSpeaking && priority != Some(High)) ==>
        u == Some(Speech(text, priority)) && voiceQueue == old(voiceQueue)
        && synthesized == old(synthesized) + [Speech(text, priority)]
      ensures isVoiceEnabled == old(isVoiceEnabled) && isSpeaking == old(isSpeaking)
      ensures currentSpeech == old(currentSpeech)
    {
      if !isVoiceEnabled {
        return None;
      }
      if isSpeaking && priority != Some(High) {
        voiceQueue := voiceQueue + [Speech(text, priority)];
        return None;
      }
      var utterance := Speech(text, priority);
      synthesized := synthesized + [utterance];
      u := Some(utterance);
    }

    /** The utterance's start event: it is now playing, and the app state
        records that voice is active. */
    method OnStart(u: Speech, store: Store) returns (notified: seq<Notification>)
      modifies this, store
      ensures isSpeaking && currentSpeech == Some(u)
      ensures voiceQueue == old(voiceQueue) && synthesized == old(synthesized)
      ensures isVoiceEnabled == old(isVoiceEnabled)
      ensures store.state == old(store.state) + map[VozActiva := FlagVal(true)]
      ensures notified == Notify(store.listeners, store.state, Some(old(store.state)))
    {
      isSpeaking := true;
      currentSpeech := Some(u);
      notified := store.Set(map[VozActiva := FlagVal(true)]);
    }

    /** `processQueue`: when idle, the head of the queue is taken off and
        spoken; otherwise nothing happens. */
    method ProcessQueue()
      modifies this
      ensures old(voiceQueue) != [] && !old(isSpeaking) ==>
        voiceQueue == old(voiceQueue)[1..]
        && synthesized == old(synthesized) + (if isVoiceEnabled then [old(voiceQueue)[0]] else [])
      ensures !(old(voiceQueue) != [] && !old(isSpeaking)) ==>
        voiceQueue == old(voiceQueue) && synthesized == old(synthesized)
      ensures isVoiceEnabled == old(isVoiceEnabled) && isSpeaking == old(isSpeaking)
      ensures currentSpeech == old(currentSpeech)
    {
      if |voiceQueue| > 0 && !isSpeaking {
        var next := voiceQueue[0];
        voiceQueue := voiceQueue[1..];
        var _ := Speak(next.text, next.priority);
      }
    }

    /** The end (or error) event: nothing is playing and the queue moves on. */
    method OnEnd()
      modifies this
      ensures !isSpeaking && currentSpeech.None?
      ensures old(voiceQueue) != [] ==>
        voiceQueue == old(voiceQueue)[1..]
        && synthesized == old(synthesized) + (if isVoiceEnabled then [old(voiceQueue)[0]] else [])
      ensures old(voiceQueue) == [] ==> voiceQueue == [] && synthesized == old(synthesized)
      ensures isVoiceEnabled == old(isVoiceEnabled)
    {
      isSpeaking := false;
      currentSpeech := None;
      ProcessQueue();
    }

    /** `stopSpeaking`: only while the synthesiser is speaking, playback
        stops, the queue is emptied and the app state records voice off. */
    method StopSpeaking(synthSpeaking: bool, store: Store) returns (notified: seq<Notification>)
      modifies this, store
      ensures synthSpeaking ==>
        !isSpeaking && currentSpeech.None? && voiceQueue == []
        && store.state == old(store.state) + map[VozActiva := FlagVal(false)]
        && notified == Notify(store.listeners, store.state, Some(old(store.state)))
      ensures !synthSpeaking ==>
        isSpeaking == old(isSpeaking) && currentSpeech == old(currentSpeech)
        && voiceQueue == old(voiceQueue) && store.state == old(store.state) && notified == []
      ensures synthesized == old(synthesized) && isVoiceEnabled == old(isVoiceEnabled)
      ensures store.listeners == old(store.listeners)
    {
      notified := [];
      if synthSpeaking {
        isSpeaking := false;
        currentSpeech := None;
        voiceQueue := [];
        notified := store.Set(map[VozActiva := FlagVal(false)]);
      }
    }

    /** `clearQueue`: the queue is emptied and nothing else changes. */
    method ClearQueue()
      modifies this
      ensures voiceQueue == []
      ensures isSpeaking == old(isSpeaking) && currentSpeech == old(currentSpeech)
      ensures synthesized == old(synthesized) && isVoiceEnabled == old(isVoiceEnabled)
    {
      voiceQueue := [];
    }
  }
}
