/**
  The listening session of the `useVoiceCommands` hooks: the React state
  (`isListening`, `isProcessing`, `confidence`, `lastCommand`, `error`) and the
  refs (`recognitionRef`, `isProcessingRef`, `timeoutRef`) as fields of one
  object, driven by the recognition events and by start, stop and toggle.

  Platform calls are recorded in `outputs` instead of being made. The 500 ms
  dispatch timer is split in two: `OnResult` queues the transcript in
  `pending`, and `OnDispatchTimer` is the timer firing.
*/
module VoiceSession {
  import opened Wrappers
  import opened Text
  import opened Seqs
  import opened Dispatch
  import opened VoiceTables

  /** One recognition alternative, with the fields the hook declares for it. */
  datatype Alternative = Alternative(transcript: string, confidence: Option<real>, isFinal: bool)

  /** One entry of `event.results`: its alternatives, of which only the first is read. */
  type Segment = seq<Alternative>

  datatype ToastKind = Success | Warning | Destructive

  /** What the session asks of the platform. */
  datatype Output =
    | Fire(action: Action)
    | StartRecognition
    | StopRecognition
    | Toast(title: string, description: string, kind: ToastKind)
    | Speak(text: string)

  /** The segments the loop visits: `resultIndex` onwards. */
  function Window(results: seq<Segment>, resultIndex: nat): seq<Segment>
  {
    if resultIndex < |results| then results[resultIndex..] else []
  }

  predicate IsFinalSegment(seg: Segment)
  {
    seg != [] && seg[0].isFinal
  }

  /** `result[0].transcript.toLowerCase().trim()`, or "" for a segment the loop skips. */
  function SegmentText(seg: Segment): string
  {
    if seg == [] then "" else Normalise(seg[0].transcript)
  }

  /** `finalTranscript` after the loop has visited `segs`. */
  function FinalTranscript(segs: seq<Segment>): string
  {
    if segs == [] then ""
    else
      var last := segs[|segs| - 1];
      FinalTranscript(segs[..|segs| - 1]) + (if IsFinalSegment(last) then SegmentText(last) else "")
  }

  /** `confidence || 0.5`: a missing or zero interim confidence reads as 0.5. */
  function InterimConfidence(c: Option<real>): real
  {
    if c.None? || c.value == 0.0 then 0.5 else c.value
  }

  /** The `confidence` state after one segment. */
  function StepConfidence(conf: Option<real>, seg: Segment): Option<real>
  {
    if seg == [] then conf
    else if seg[0].isFinal then seg[0].confidence
    else Some(InterimConfidence(seg[0].confidence))
  }

  /** The `confidence` state after the loop has visited `segs`: the last update wins. */
  function ConfidenceAfter(conf: Option<real>, segs: seq<Segment>): Option<real>
  {
    if segs == [] then conf else StepConfidence(ConfidenceAfter(conf, segs[..|segs| - 1]), segs[|segs| - 1])
  }

  /**
    The final transcript is the normalised texts of the final segments, in
    order, joined with no separator; interim and empty segments add nothing.
  */
  lemma {:induction false} FinalTranscriptJoinsFinals(segs: seq<Segment>)
    ensures FinalTranscript(segs) == Flatten(Map(Filter(segs, IsFinalSegment), SegmentText))
  {
    if segs == [] {
      assert Filter(segs, IsFinalSegment) == [];
    } else {
      var init, last := segs[..|segs| - 1], segs[|segs| - 1];
      assert segs == init + [last];
      FinalTranscriptJoinsFinals(init);
      FilterSnoc(init, last, IsFinalSegment);
      var f := Filter(init, IsFinalSegment);
      var m := Map(f, SegmentText);
      if IsFinalSegment(last) {
        assert Filter(segs, IsFinalSegment) == f + [last];
        assert Map(f + [last], SegmentText) == m + [SegmentText(last)];
        FlattenSnoc(m, SegmentText(last));
      } else {
        assert Filter(segs, IsFinalSegment) == f;
      }
    }
  }

  /** Without a final segment there is nothing to dispatch. */
  lemma NoFinalNoTranscript(segs: seq<Segment>)
    requires forall i :: 0 <= i < |segs| ==> !IsFinalSegment(segs[i])
    ensures FinalTranscript(segs) == ""
  {
    FinalTranscriptJoinsFinals(segs);
    var f := Filter(segs, IsFinalSegment);
    if f != [] {
      FilterMember(segs, IsFinalSegment, f[0]);
    }
    assert Map(f, SegmentText) == [];
  }

  /**
    The confidence shown is set by the last segment that has an alternative:
    its own value when final, `confidence || 0.5` when interim. When no
    segment has an alternative, the previous value stays.
  */
  lemma {:induction false} ConfidenceFromLastSegment(conf: Option<real>, segs: seq<Segment>, k: nat)
    requires k < |segs| && segs[k] != []
    requires forall j :: k < j < |segs| ==> segs[j] == []
    ensures ConfidenceAfter(conf, segs) ==
              (if segs[k][0].isFinal then segs[k][0].confidence else Some(InterimConfidence(segs[k][0].confidence)))
  {
    if k < |segs| - 1 {
      ConfidenceFromLastSegment(conf, segs[..|segs| - 1], k);
    }
  }

  lemma {:induction false} ConfidenceKeptWithoutAlternatives(conf: Option<real>, segs: seq<Segment>)
    requires forall j :: 0 <= j < |segs| ==> segs[j] == []
    ensures ConfidenceAfter(conf, segs) == conf
  {
    if segs != [] {
      ConfidenceKeptWithoutAlternatives(conf, segs[..|segs| - 1]);
    }
  }

  /** Toast and speech texts of the two hooks. */
  const RootExecutedTitle := "✅ Entendi!"
  const RootExecutedPrefix := "Executando: \""
  const FrontendExecutedTitle := "Comando executado"
  const RootNotUnderstoodTitle := "❓ Não entendi"
  const RootNotUnderstoodHint := "Tente falar: \"melhorar currículo\", \"treinar entrevista\" ou \"achar emprego\""
  const FrontendNotUnderstoodTitle := "Comando não reconhecido"
  const FrontendNotUnderstoodHint := "Tente: \"analisar currículo\", \"simular entrevista\", \"buscar vagas\""
  const RootSpeechPrefix := "Não entendi \""
  const RootSpeechSuffix := "\". Você pode falar: melhorar currículo, treinar entrevista, achar emprego, ou voltar."
  const FrontendSpeech := "Comando não reconhecido. Tente comandos como analisar currículo, simular entrevista ou buscar vagas."
  const RootErrorTitle := "⚠️ Problema com a voz"
  const FrontendErrorTitle := "Erro no reconhecimento de voz"

  function ExecutedToast(v: Variant, t: string): Output
  {
    match v
    case Root => Toast(RootExecutedTitle, RootExecutedPrefix + t + "\"", Success)
    case Frontend => Toast(FrontendExecutedTitle, "\"" + t + "\"", Success)
  }

  function NotUnderstoodToast(v: Variant): Output
  {
    match v
    case Root => Toast(RootNotUnderstoodTitle, RootNotUnderstoodHint, Warning)
    case Frontend => Toast(FrontendNotUnderstoodTitle, FrontendNotUnderstoodHint, Warning)
  }

  function NotUnderstoodSpeech(v: Variant, t: string): Output
  {
    match v
    case Root => Speak(RootSpeechPrefix + t + RootSpeechSuffix)
    case Frontend => Speak(FrontendSpeech)
  }

  function ErrorToast(v: Variant, code: string): Output
  {
    match v
    case Root => Toast(RootErrorTitle, ErrorMessage(v, code), Destructive)
    case Frontend => Toast(FrontendErrorTitle, ErrorMessage(v, code), Destructive)
  }

  /** What the 500 ms timer does with a transcript, given what `processCommand` found for it. */
  function Outcome(v: Variant, t: string, found: Option<Action>): seq<Output>
  {
    match found
    case Some(a) => [Fire(a), ExecutedToast(v, t)]
    case None => [NotUnderstoodToast(v), NotUnderstoodSpeech(v, t)]
  }

  /** An action is fired exactly when a command was found, and it is the one found. */
  lemma OutcomeFiresIffFound(v: Variant, t: string, found: Option<Action>)
    ensures (exists o :: o in Outcome(v, t, found) && o.Fire?) <==> found.Some?
    ensures forall o :: o in Outcome(v, t, found) && o.Fire? ==> Some(o.action) == found
  {
    if found.Some? {
      assert Outcome(v, t, found)[0] == Fire(found.value);
    }
  }

  /** Every transcript that does not fire is answered by a warning toast and speech. */
  lemma UnmatchedIsAnswered(v: Variant, t: string, found: Option<Action>)
    requires found.None?
    ensures |Outcome(v, t, found)| == 2
    ensures Outcome(v, t, found)[0].Toast? && Outcome(v, t, found)[0].kind == Warning
    ensures Outcome(v, t, found)[1].Speak?
  {
  }

  /** Each phrase the failure hint suggests is executed and confirmed when spoken as written. */
  lemma HintPhraseIsExecuted(v: Variant, p: string)
    requires p in HintPhrases(v)
    ensures var i := ExactIndex(Commands(v), p);
            i.Some? && Outcome(v, p, ProcessCommand(Commands(v), p)) == [Fire(Commands(v)[i.value].1), ExecutedToast(v, p)]
  {
    HintPhraseFires(v, p);
  }

  const InitFailure := "Falha ao inicializar reconhecimento de voz"
  const StartFailure := "Falha ao iniciar reconhecimento"

  class Session {
    const variant: Variant
    /** `isSupported`: the browser offers speech recognition. */
    const supported: bool
    /** The hook's `processCommand` callback over its `voiceCommands` table. */
    const processCommand: string -> Option<Action>
    /** `recognitionRef.current !== null`. */
    var ready: bool
    var isListening: bool
    var isProcessing: bool
    /** `isProcessingRef.current`. */
    var guard: bool
    /** `timeoutRef.current !== null`. */
    var timeoutArmed: bool
    var confidence: Option<real>
    var lastCommand: Option<string>
    var error: Option<string>
    /** Transcripts whose 500 ms dispatch timer has not fired yet. */
    var pending: seq<string>
    var outputs: seq<Output>

    ghost predicate Valid()
      reads this
    {
      (ready ==> supported) && isProcessing == guard && (isListening ==> ready) && (timeoutArmed ==> ready)
    }

    /** Mounting: `initializeRecognition` runs when supported; `initFails` is the constructor throwing. */
    constructor(variant: Variant, supported: bool, initFails: bool)
      ensures Valid()
      ensures this.variant == variant && this.supported == supported
      ensures forall t :: processCommand(t) == ProcessCommand(Commands(variant), t)
      ensures ready == (supported && !initFails)
      ensures error == (if supported && initFails then Some(InitFailure) else None)
      ensures !isListening && !isProcessing && !guard && !timeoutArmed
      ensures confidence.None? && lastCommand.None? && pending == [] && outputs == []
    {
      this.variant := variant;
      this.supported := supported;
      processCommand := t => ProcessCommand(Commands(variant), t);
      ready := supported && !initFails;
      error := if supported && initFails then Some(InitFailure) else None;
      isListening, isProcessing, guard, timeoutArmed := false, false, false, false;
      confidence, lastCommand := None, None;
      pending, outputs := [], [];
    }

    method OnStart()
      requires Valid() && ready
      modifies this
      ensures Valid()
      ensures isListening && error.None? && confidence.None?
      ensures ready == old(ready) && isProcessing == old(isProcessing) && guard == old(guard)
      ensures timeoutArmed == old(timeoutArmed) && lastCommand == old(lastCommand)
      ensures pending == old(pending) && outputs == old(outputs)
    {
      isListening := true;
      error := None;
      confidence := None;
    }

    method OnEnd()
      requires Valid() && ready
      modifies this
      ensures Valid()
      ensures !isListening && !isProcessing && !guard
      ensures ready == old(ready) && timeoutArmed == old(timeoutArmed) && confidence == old(confidence)
      ensures lastCommand == old(lastCommand) && error == old(error)
      ensures pending == old(pending) && outputs == old(outputs)
    {
      isListening := false;
      isProcessing := false;
      guard := false;
    }

    method OnError(code: string)
      requires Valid() && ready
      modifies this
      ensures Valid()
      ensures error == Some(ErrorMessage(variant, code))
      ensures !isListening && !isProcessing && !guard
      ensures outputs == old(outputs) + [ErrorToast(variant, code)]
      ensures ready == old(ready) && timeoutArmed == old(timeoutArmed) && confidence == old(confidence)
      ensures lastCommand == old(lastCommand) && pending == old(pending)
    {
      error := Some(ErrorMessage(variant, code));
      isListening := false;
      isProcessing := false;
      guard := false;
      outputs := outputs + [ErrorToast(variant, code)];
    }

    /**
      `onresult`: fold the segments from `resultIndex` on into the final
      transcript and the confidence, then queue the transcript unless it is
      empty or a dispatch is already under way.
    */
    method OnResult(results: seq<Segment>, resultIndex: nat)
      requires Valid() && ready
      modifies this
      ensures Valid()
      ensures confidence == ConfidenceAfter(old(confidence), Window(results, resultIndex))
      ensures var t := FinalTranscript(Window(results, resultIndex));
              if t != "" && !old(guard)
              then guard && pending == old(pending) + [t]
              else guard == old(guard) && pending == old(pending)
      ensures ready == old(ready) && isListening == old(isListening) && timeoutArmed == old(timeoutArmed)
      ensures lastCommand == old(lastCommand) && error == old(error) && outputs == old(outputs)
    {
      var finalTranscript := "";
      var conf := confidence;
      if resultIndex < |results| {
        var i := resultIndex;
        while i < |results|
          invariant resultIndex <= i <= |results|
          invariant finalTranscript == FinalTranscript(results[resultIndex..i])
          invariant conf == ConfidenceAfter(confidence, results[resultIndex..i])
        {
          var seg := results[i];
          assert results[resultIndex..i + 1][..i - resultIndex] == results[resultIndex..i];
          if seg != [] {
            var transcript := Normalise(seg[0].transcript);
            if seg[0].isFinal {
              finalTranscript := finalTranscript + transcript;
              conf := seg[0].confidence;
            } else {
              conf := Some(InterimConfidence(seg[0].confidence));
            }
          }
          i := i + 1;
        }
        assert results[resultIndex..i] == Window(results, resultIndex);
      }
      confidence := conf;
      if finalTranscript != "" && !guard {
        guard := true;
        isProcessing := true;
        pending := pending + [finalTranscript];
      }
    }

    /** The 500 ms timer of the oldest queued transcript fires. */
    method OnDispatchTimer()
      requires Valid() && pending != []
      modifies this
      ensures Valid()
      ensures pending == old(pending[1..])
      ensures outputs == old(outputs) + Outcome(variant, old(pending[0]), processCommand(old(pending[0])))
      ensures lastCommand == (if processCommand(old(pending[0])).Some?
                              then Some(old(pending[0])) else old(lastCommand))
      ensures !isProcessing && !guard
      ensures ready == old(ready) && isListening == old(isListening) && timeoutArmed == old(timeoutArmed)
      ensures confidence == old(confidence) && error == old(error)
    {
      var t := pending[0];
      var found := processCommand(t);
      var last := if found.Some? then Some(t) else lastCommand;
      pending, lastCommand, outputs := pending[1..], last, outputs + Outcome(variant, t, found);
      isProcessing, guard := false, false;
    }

    /** `startListening`; `startThrows` is `recognition.start()` throwing. */
    method StartListening(startThrows: bool)
      requires Valid()
      modifies this
      ensures Valid()
      ensures !supported || !old(ready) || old(isListening) ==>
                error == old(error) && outputs == old(outputs) && timeoutArmed == old(timeoutArmed)
      ensures supported && old(ready) && !old(isListening) && startThrows ==>
                error == Some(StartFailure) && outputs == old(outputs) && timeoutArmed == old(timeoutArmed)
      ensures supported && old(ready) && !old(isListening) && !startThrows ==>
                error.None? && outputs == old(outputs) + [StartRecognition] && timeoutArmed
      ensures ready == old(ready) && isListening == old(isListening) && isProcessing == old(isProcessing)
      ensures guard == old(guard) && confidence == old(confidence) && lastCommand == old(lastCommand)
      ensures pending == old(pending)
    {
      if !supported || !ready || isListening {
        return;
      }
      error := None;
      if startThrows {
        error := Some(StartFailure);
      } else {
        outputs := outputs + [StartRecognition];
        timeoutArmed := true;
      }
    }

    /** `stopListening`: stop only while listening; always clear the timeout handle. */
    method StopListening()
      requires Valid()
      modifies this
      ensures Valid()
      ensures outputs == old(outputs) + (if old(ready) && old(isListening) then [StopRecognition] else [])
      ensures !timeoutArmed
      ensures ready == old(ready) && isListening == old(isListening) && isProcessing == old(isProcessing)
      ensures guard == old(guard) && confidence == old(confidence) && lastCommand == old(lastCommand)
      ensures error == old(error) && pending == old(pending)
    {
      if ready && isListening {
        outputs := outputs + [StopRecognition];
      }
      timeoutArmed := false;
    }

    /** `toggleListening`: stop while listening, start otherwise. */
    method ToggleListening(startThrows: bool)
      requires Valid()
      modifies this
      ensures Valid()
      ensures old(isListening) ==> outputs == old(outputs) + (if old(ready) then [StopRecognition] else []) && !timeoutArmed
      ensures !old(isListening) && supported && old(ready) && !startThrows ==>
                outputs == old(outputs) + [StartRecognition] && timeoutArmed && error.None?
      ensures !old(isListening) && (!supported || !old(ready) || startThrows) ==> outputs == old(outputs)
      ensures ready == old(ready) && isListening == old(isListening) && isProcessing == old(isProcessing)
      ensures guard == old(guard) && confidence == old(confidence) && lastCommand == old(lastCommand)
      ensures pending == old(pending)
    {
      if isListening {
        StopListening();
      } else {
        StartListening(startThrows);
      }
    }
  }
}
