/**
  The floating microphone button (`src/components/voice/VoiceButton.tsx`):
  which visual state it shows for the voice session's flags, its tooltip
  and icon, when the confidence dot appears, and what the press handlers do.
  The session flags come from the voice-command hook and are parameters here.
*/
module VoiceButton {
  import opened Wrappers

  /** `getButtonState`'s five results. */
  datatype ButtonState = Error | Processing | Listening | Speaking | Idle

  /**
    `getButtonState`. `error` is the hook's error object, present or not,
    with its message; an error object is truthy whatever its message.
  */
  function GetButtonState(error: Option<string>, isProcessing: bool, isListening: bool, isSpeaking: bool): ButtonState
  {
    if error.Some? then Error
    else if isProcessing then Processing
    else if isListening then Listening
    else if isSpeaking then Speaking
    else Idle
  }

  /** Each state is shown exactly when its flag is set and no flag ranked above it is. */
  lemma ButtonStatePriority(error: Option<string>, isProcessing: bool, isListening: bool, isSpeaking: bool)
    ensures var s := GetButtonState(error, isProcessing, isListening, isSpeaking);
      && (s == Error <==> error.Some?)
      && (s == Processing <==> error.None? && isProcessing)
      && (s == Listening <==> error.None? && !isProcessing && isListening)
      && (s == Speaking <==> error.None? && !isProcessing && !isListening && isSpeaking)
      && (s == Idle <==> error.None? && !isProcessing && !isListening && !isSpeaking)
  {
  }

  datatype Icon = Mic | MicSpinning | Volume | MicOff

  /** `getIcon`. */
  function GetIcon(state: ButtonState, isSpeaking: bool): Icon
  {
    match state
    case Listening => Mic
    case Processing => MicSpinning
    case Speaking => Volume
    case Error => MicOff
    case Idle => if isSpeaking then Volume else Mic
  }

  /**
    The speaker icon in `getIcon`'s default branch is never drawn: the idle
    state already implies the session is not speaking.
  */
  lemma IdleIconIsMic(error: Option<string>, isProcessing: bool, isListening: bool, isSpeaking: bool)
    requires GetButtonState(error, isProcessing, isListening, isSpeaking) == Idle
    ensures GetIcon(Idle, isSpeaking) == Mic
  {
  }

  const TooltipUnsupported := "Comandos de voz não suportados"
  const TooltipListening := "Ouvindo... (toque para parar)"
  const TooltipProcessing := "Processando comando..."
  const TooltipSpeaking := "Falando..."
  const TooltipIdle := "Toque para ativar comandos de voz"
  const ErrorPrefix := "Erro: "
  const ErrorFallback := "Problema com microfone"

  /** `getTooltipText`. The error text uses the message, or the fallback when the message is empty. */
  function GetTooltipText(isSupported: bool, state: ButtonState, error: Option<string>): string
  {
    if !isSupported then TooltipUnsupported
    else match state
      case Listening => TooltipListening
      case Processing => TooltipProcessing
      case Speaking => TooltipSpeaking
      case Error => ErrorPrefix + (if error.Some? && error.value != [] then error.value else ErrorFallback)
      case Idle => TooltipIdle
  }

  /** The unsupported text overrides every state, and the error text carries the message or the fallback. */
  lemma TooltipSpec(isSupported: bool, state: ButtonState, error: Option<string>)
    ensures !isSupported ==> GetTooltipText(isSupported, state, error) == TooltipUnsupported
    ensures isSupported && state == Error ==>
      var t := GetTooltipText(isSupported, state, error);
      && t[..|ErrorPrefix|] == ErrorPrefix
      && t[|ErrorPrefix|..] == (if error.Some? && error.value != [] then error.value else ErrorFallback)
    ensures isSupported && state != Error ==> GetTooltipText(isSupported, state, error) != TooltipUnsupported
  {
  }

  /** Different states of a supported button have different tooltips. */
  lemma TooltipsDistinguishStates(s1: ButtonState, s2: ButtonState, error: Option<string>)
    requires s1 != s2
    ensures GetTooltipText(true, s1, error) != GetTooltipText(true, s2, error)
  {
    // The error text starts with 'E'; no other tooltip does.
    if s1 == Error {
      assert GetTooltipText(true, s1, error)[0] == 'E' != GetTooltipText(true, s2, error)[0];
    } else if s2 == Error {
      assert GetTooltipText(true, s2, error)[0] == 'E' != GetTooltipText(true, s1, error)[0];
    }
  }

  /** `isListening && confidence && confidence > 0`: zero is falsy, so the condition is positivity. */
  predicate ShowConfidence(isListening: bool, confidence: real)
  {
    isListening && confidence != 0.0 && confidence > 0.0
  }

  lemma ShowConfidenceIff(isListening: bool, confidence: real)
    ensures ShowConfidence(isListening, confidence) <==> isListening && confidence > 0.0
  {
  }

  /** What the button asks of the browser and of the voice session. */
  datatype ButtonAction = Vibrate(pattern: seq<nat>) | ToggleListening | StartListening | StopListening

  /** A `lastCommand` the feedback effect acts on: present and non-empty. */
  predicate Truthy(lastCommand: Option<string>)
  {
    lastCommand.Some? && lastCommand.value != []
  }

  /**
    The button's own state: `isPressed`, `showFeedback`, the actions its
    handlers have issued, in order, the `lastCommand` the feedback effect
    last ran for (the hook starts it at `null`), and whether that effect's
    two-second hide timer is pending.
  */
  class Button {
    var isPressed: bool
    var showFeedback: bool
    var actions: seq<ButtonAction>
    var seenCommand: Option<string>
    var hideTimer: bool

    constructor()
      ensures !isPressed && !showFeedback && actions == [] && seenCommand == None && !hideTimer
    {
      isPressed := false;
      showFeedback := false;
      actions := [];
      seenCommand := None;
      hideTimer := false;
    }

    /** `handlePress` (a click): nothing when unsupported, else press, short vibration, toggle. */
    method HandlePress(isSupported: bool)
      modifies this
      ensures !isSupported ==> isPressed == old(isPressed) && actions == old(actions)
      ensures isSupported ==> isPressed && actions == old(actions) + [Vibrate([50]), ToggleListening]
      ensures showFeedback == old(showFeedback) && seenCommand == old(seenCommand) && hideTimer == old(hideTimer)
    {
      if !isSupported {
        return;
      }
      isPressed := true;
      actions := actions + [Vibrate([50]), ToggleListening];
    }

    /** The 150 ms release timer `handlePress` schedules. */
    method ReleaseTimer()
      modifies this
      ensures !isPressed && showFeedback == old(showFeedback) && actions == old(actions)
      ensures seenCommand == old(seenCommand) && hideTimer == old(hideTimer)
    {
      isPressed := false;
    }

    /** `handlePressStart` (touch or mouse down): nothing when unsupported, else press and start listening. */
    method HandlePressStart(isSupported: bool)
      modifies this
      ensures !isSupported ==> isPressed == old(isPressed) && actions == old(actions)
      ensures isSupported ==> isPressed && actions == old(actions) + [Vibrate([100]), StartListening]
      ensures showFeedback == old(showFeedback) && seenCommand == old(seenCommand) && hideTimer == old(hideTimer)
    {
      if !isSupported {
        return;
      }
      isPressed := true;
      actions := actions + [Vibrate([100]), StartListening];
    }

    /** `handlePressEnd`: always releases; stops the session only while it listens. */
    method HandlePressEnd(isListening: bool)
      modifies this
      ensures !isPressed
      ensures isListening ==> actions == old(actions) + [Vibrate([50, 50, 50]), StopListening]
      ensures !isListening ==> actions == old(actions)
      ensures showFeedback == old(showFeedback) && seenCommand == old(seenCommand) && hideTimer == old(hideTimer)
    {
      isPressed := false;
      if isListening {
        actions := actions + [Vibrate([50, 50, 50]), StopListening];
      }
    }

    /**
      A render with the hook's current `lastCommand`. The feedback effect
      runs only when that value differs from the one it last ran for: its
      cleanup cancels the pending hide timer, and a truthy command shows
      the bubble and arms a new timer.
    */
    method OnLastCommand(lastCommand: Option<string>)
      modifies this
      ensures lastCommand == old(seenCommand) ==>
        showFeedback == old(showFeedback) && hideTimer == old(hideTimer) && seenCommand == old(seenCommand)
      ensures lastCommand != old(seenCommand) ==>
        seenCommand == lastCommand && (hideTimer <==> Truthy(lastCommand))
        && (if Truthy(lastCommand) then showFeedback else showFeedback == old(showFeedback))
      ensures isPressed == old(isPressed) && actions == old(actions)
    {
      if lastCommand != seenCommand {
        hideTimer := false;
        seenCommand := lastCommand;
        if Truthy(lastCommand) {
          showFeedback := true;
          hideTimer := true;
        }
      }
    }

    /** The effect's two-second timer fires and hides the bubble. */
    method HideFeedbackTimer()
      modifies this
      requires hideTimer
      ensures !showFeedback && !hideTimer
      ensures isPressed == old(isPressed) && actions == old(actions) && seenCommand == old(seenCommand)
    {
      showFeedback := false;
      hideTimer := false;
    }

    /** The tutorial's "Entendi!" button hides the bubble; a pending timer stays armed. */
    method DismissTutorial()
      modifies this
      ensures !showFeedback
      ensures isPressed == old(isPressed) && actions == old(actions)
      ensures seenCommand == old(seenCommand) && hideTimer == old(hideTimer)
    {
      showFeedback := false;
    }
  }

  /**
    A new command recognised twice in a row: once the first bubble has timed out,
    the repeated value does not re-run the effect, so no new bubble appears.
  */
  method RepeatedCommandShowsNoBubble(b: Button, command: string)
    modifies b
    requires command != [] && b.seenCommand != Some(command)
    ensures !b.showFeedback && b.seenCommand == Some(command)
  {
    b.OnLastCommand(Some(command));
    b.HideFeedbackTimer();
    b.OnLastCommand(Some(command));
  }

  /** A press on an unsupported button changes nothing at all. */
  method UnsupportedPressIsInert(b: Button)
    modifies b
    ensures b.isPressed == old(b.isPressed) && b.showFeedback == old(b.showFeedback) && b.actions == old(b.actions)
    ensures b.seenCommand == old(b.seenCommand) && b.hideTimer == old(b.hideTimer)
  {
    b.HandlePress(false);
    b.HandlePressStart(false);
  }
}
