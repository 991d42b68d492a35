/** The voice-recognition session of the home page: the flags that guard
    starting and stopping the recognition engine, the engine's event
    handlers, the conversation turn (`handleSendToGemini`) and the launch of
    a detected game when the spoken reply ends. */
module Session {
  import opened Wrappers
  import Text
  import Intent

  /** The minimum time between two start attempts, in milliseconds. */
  const Cooldown: int := 2000

  const FailureReply: string := "Sorry, I had trouble understanding that."

  /** The engine's own `state` property, when it has one. */
  datatype EngineState = NoState | Recording | Starting | OtherState

  /** How `recognition.start()` returns: normally, or by throwing an
      `Error` of one of two recognised names, another `Error`, or a value
      that is not an `Error`. */
  datatype StartOutcome = Started | InvalidStateError | NotAllowedError | OtherError | NonErrorThrown

  /** `event.error` of `onerror`, as far as the handler distinguishes it. */
  datatype RecognitionError = NotAllowed | OtherRecognitionError

  /** One entry of `event.results`: its `isFinal` and its first
      alternative's transcript. */
  datatype SpeechResult = SpeechResult(isFinal: bool, transcript: string)

  datatype Role = User | Assistant
  datatype Message = Message(role: Role, content: string)

  /** A game waiting for the spoken reply to end, with its AI mode. */
  datatype PendingGame = PendingGame(game: Intent.GameId, aiMode: bool)

  /** Consecutive start attempts are at least the cooldown apart. */
  ghost predicate Spaced(starts: seq<int>) {
    forall i :: 0 < i < |starts| ==> starts[i] - starts[i - 1] >= Cooldown
  }

  /** Any two start attempts are apart by the cooldown times the number of
      attempts between them. */
  lemma {:induction false} SpacedApart(starts: seq<int>, i: int, j: int)
    requires Spaced(starts) && 0 <= i <= j < |starts|
    decreases j - i
    ensures starts[j] - starts[i] >= Cooldown * (j - i)
  {
    if i < j {
      SpacedApart(starts, i, j - 1);
    }
  }

  /** The transcripts of the final results from `i` on, concatenated. */
  function FinalFrom(results: seq<SpeechResult>, i: nat): string
    decreases |results| - i
  {
    if i >= |results| then ""
    else (if results[i].isFinal then results[i].transcript else "") + FinalFrom(results, i + 1)
  }

  /** The transcripts of the interim results from `i` on, concatenated. */
  function InterimFrom(results: seq<SpeechResult>, i: nat): string
    decreases |results| - i
  {
    if i >= |results| then ""
    else (if results[i].isFinal then "" else results[i].transcript) + InterimFrom(results, i + 1)
  }

  /** Every result's text lands in exactly one of the two transcripts. */
  lemma {:induction false} TranscriptsSplitResults(results: seq<SpeechResult>, i: nat)
    decreases |results| - i
    ensures |FinalFrom(results, i)| + |InterimFrom(results, i)| == TotalLength(results, i)
    ensures (forall k :: i <= k < |results| ==> !results[k].isFinal) ==> FinalFrom(results, i) == ""
    ensures (forall k :: i <= k < |results| ==> results[k].isFinal) ==> InterimFrom(results, i) == ""
  {
    if i < |results| {
      TranscriptsSplitResults(results, i + 1);
    }
  }

  function TotalLength(results: seq<SpeechResult>, i: nat): nat
    decreases |results| - i
  {
    if i >= |results| then 0 else |results[i].transcript| + TotalLength(results, i + 1)
  }

  /** The `for` loop of `onresult` from `event.resultIndex`. */
  method CollectTranscripts(results: seq<SpeechResult>, resultIndex: nat)
    returns (final: string, interim: string)
    ensures final == FinalFrom(results, resultIndex)
    ensures interim == InterimFrom(results, resultIndex)
  {
    final, interim := "", "";
    var i := resultIndex;
    while i < |results|
      invariant resultIndex <= i
      invariant i <= |results| || i == resultIndex
      invariant final + FinalFrom(results, i) == FinalFrom(results, resultIndex)
      invariant interim + InterimFrom(results, i) == InterimFrom(results, resultIndex)
      decreases |results| - i
    {
      if results[i].isFinal {
        final := final + results[i].transcript;
      } else {
        interim := interim + results[i].transcript;
      }
      i := i + 1;
    }
  }

  /** The state of the page that the session reads and writes. */
  class Session {
    /** `recognitionRef.current` is set (the browser has an engine). */
    const hasEngine: bool

    var isListening: bool
    var isStarting: bool
    var isStopping: bool
    var shouldListen: bool
    var lastRestartAttempt: int
    var finalTranscript: string
    var transcript: string
    /** The armed silence timer and the interim text it closes over. */
    var silenceTimer: Option<string>
    var isSpeaking: bool
    var isProcessing: bool
    var aiResponse: string
    var history: seq<Message>
    var pendingGameLaunch: Option<PendingGame>
    /** The game the utterance being spoken launches when it ends. */
    var speechGame: Option<PendingGame>
    var showTicTacToe: bool
    var showTrivia: bool
    var showSudoku: bool
    var ticTacToeAiMode: bool
    /** The times at which `recognition.start()` was called. */
    ghost var starts: seq<int>

    ghost predicate Valid()
      reads this
    {
      && Spaced(starts)
      && (starts != [] ==> starts[|starts| - 1] == lastRestartAttempt)
      && (starts == [] ==> lastRestartAttempt == 0)
    }

    constructor(hasEngine: bool)
      ensures Valid() && this.hasEngine == hasEngine
      ensures !isListening && !isStarting && !isStopping && shouldListen
      ensures lastRestartAttempt == 0 && starts == []
      ensures !isSpeaking && !isProcessing && history == [] && pendingGameLaunch == None
      ensures !showTicTacToe && !showTrivia && !showSudoku
    {
      this.hasEngine := hasEngine;
      isListening, isStarting, isStopping, shouldListen := false, false, false, true;
      lastRestartAttempt := 0;
      finalTranscript, transcript, silenceTimer := "", "", None;
      isSpeaking, isProcessing, aiResponse := false, false, "";
      history, pendingGameLaunch, speechGame := [], None, None;
      showTicTacToe, showTrivia, showSudoku, ticTacToeAiMode := false, false, false, false;
      starts := [];
    }

    /** `canStartRecognition()` at time `now`. */
    predicate CanStart(now: int, engine: EngineState)
      reads this
    {
      && hasEngine
      && engine != Recording && engine != Starting
      && now - lastRestartAttempt >= Cooldown
      && !isListening && !isStarting && shouldListen
    }

    /** `startRecognition()` at time `now`. `issued` says whether
        `recognition.start()` was called; `retry` whether the 3-second retry
        timer was set. */
    method Start(now: int, engine: EngineState, outcome: StartOutcome, stopThrows: bool)
      returns (issued: bool, retry: bool)
      requires Valid()
      modifies this`isStarting, this`lastRestartAttempt, this`starts, this`isListening
      ensures Valid()
      ensures issued <==> old(CanStart(now, engine))
      ensures !issued ==> !retry && isStarting == old(isStarting) && isListening == old(isListening)
                          && lastRestartAttempt == old(lastRestartAttempt) && starts == old(starts)
      ensures issued ==> starts == old(starts) + [now] && lastRestartAttempt == now
      ensures issued ==> isStarting == outcome.Started?
      ensures issued ==> isListening == (outcome == InvalidStateError && !stopThrows)
      ensures issued ==> isStopping == old(isStopping) && shouldListen == old(shouldListen)
      ensures retry <==> issued && (outcome == OtherError || outcome == NonErrorThrown)
      ensures finalTranscript == old(finalTranscript) && transcript == old(transcript)
      ensures isSpeaking == old(isSpeaking) && isProcessing == old(isProcessing)
      ensures history == old(history) && pendingGameLaunch == old(pendingGameLaunch)
    {
      issued, retry := false, false;
      if !hasEngine || !shouldListen {
        return;
      }
      if !CanStart(now, engine) {
        return;
      }
      isStarting := true;
      lastRestartAttempt := now;
      starts := starts + [now];
      issued := true;
      if outcome != Started {
        isStarting := false;
        if outcome == InvalidStateError {
          if !stopThrows {
            isListening := true;
          }
        } else if outcome == NotAllowedError {
        } else {
          retry := true;
        }
      }
    }

    /** `stopRecognition()`. */
    method Stop(stopThrows: bool)
      modifies this`isStopping
      ensures isStopping == (if hasEngine && isListening && !old(isStopping) then !stopThrows else old(isStopping))
    {
      if !hasEngine {
        return;
      }
      if !isListening || isStopping {
        return;
      }
      isStopping := true;
      if stopThrows {
        isStopping := false;
      }
    }

    /** `recognition.onstart`. */
    method OnStart()
      modifies this`isListening, this`isStarting, this`finalTranscript, this`transcript
      ensures isListening && !isStarting && finalTranscript == "" && transcript == ""
    {
      isListening := true;
      isStarting := false;
      finalTranscript := "";
      transcript := "";
    }

    /** `recognition.onresult`. `send` is the text handed to
        `handleSendToGemini` at once, when there is final text. */
    method OnResult(results: seq<SpeechResult>, resultIndex: nat) returns (send: Option<string>)
      modifies this`finalTranscript, this`transcript, this`silenceTimer
      ensures isSpeaking || isProcessing ==>
        send == None && unchanged(this`finalTranscript, this`transcript, this`silenceTimer)
      ensures !isSpeaking && !isProcessing ==>
        var final := FinalFrom(results, resultIndex);
        var interim := InterimFrom(results, resultIndex);
        && finalTranscript == final
        && transcript == (if final != "" then final else interim)
        && silenceTimer == (if Text.Trim(interim) != "" && final == "" then Some(interim) else None)
        && send == (if Text.Trim(final) != "" then Some(final) else None)
    {
      send := None;
      if isSpeaking || isProcessing {
        return;
      }
      var final, interim := CollectTranscripts(results, resultIndex);
      finalTranscript := final;
      transcript := if final != "" then final else interim;
      silenceTimer := None;
      if Text.Trim(interim) != "" && final == "" {
        silenceTimer := Some(interim);
      }
      if Text.Trim(final) != "" && !isProcessing && !isSpeaking {
        send := Some(final);
      }
    }

    /** The silence timer firing: the text handed to `handleSendToGemini`,
        if any. */
    method OnSilenceTimeout() returns (send: Option<string>)
      modifies this`silenceTimer
      ensures silenceTimer == None
      ensures old(silenceTimer).None? ==> send == None
      ensures old(silenceTimer).Some? ==>
        var current := if finalTranscript != "" then finalTranscript else old(silenceTimer).value;
        send == (if Text.Trim(current) != "" && !isProcessing && !isSpeaking then Some(current) else None)
    {
      send := None;
      if silenceTimer.Some? {
        var current := if finalTranscript != "" then finalTranscript else silenceTimer.value;
        if Text.Trim(current) != "" && !isProcessing && !isSpeaking {
          send := Some(current);
        }
      }
      silenceTimer := None;
    }

    /** `recognition.onend`; `restart` says whether the 2-second restart
        timer was set. */
    method OnEnd() returns (restart: bool)
      modifies this`isListening, this`isStarting, this`isStopping
      ensures !isListening && !isStarting && !isStopping
      ensures restart <==> shouldListen && !isSpeaking && !isProcessing
    {
      isListening, isStarting, isStopping := false, false, false;
      restart := shouldListen && !isSpeaking && !isProcessing;
    }

    /** `recognition.onerror`; no restart after a permission error. */
    method OnError(error: RecognitionError) returns (restart: bool)
      modifies this`isListening, this`isStarting, this`isStopping
      ensures !isListening && !isStarting && !isStopping
      ensures restart <==> error != NotAllowed && shouldListen && !isSpeaking && !isProcessing
    {
      isListening, isStarting, isStopping := false, false, false;
      if error == NotAllowed {
        return false;
      }
      restart := shouldListen && !isSpeaking && !isProcessing;
    }

    /** The effect run when `isProcessing`, `isSpeaking` or `isListening`
        changes; `scheduled` says whether the 1-second start timer was set. */
    method GateEffect(stopThrows: bool) returns (scheduled: bool)
      modifies this`shouldListen, this`isStopping
      ensures shouldListen == (!isProcessing && !isSpeaking)
      ensures scheduled <==> shouldListen && !isListening && hasEngine && !isStarting && !isStopping
      ensures shouldListen ==> isStopping == old(isStopping)
      ensures !shouldListen ==>
        isStopping == (if isListening && hasEngine && !old(isStopping) then !stopThrows else old(isStopping))
    {
      shouldListen := !isProcessing && !isSpeaking;
      scheduled := false;
      if shouldListen {
        if !isListening && hasEngine && !isStarting && !isStopping {
          scheduled := true;
        }
      } else if isListening && hasEngine && !isStopping {
        Stop(stopThrows);
      }
    }

    /** The clean-up of the effect that created the engine. */
    method Teardown()
      modifies this`isStarting, this`isStopping, this`shouldListen
      ensures !isStarting && !isStopping && !shouldListen
    {
      isStarting, isStopping, shouldListen := false, false, false;
    }

    /** The 5-second health check: whether it sets the 3-second start timer. */
    predicate HealthCheckRestarts()
      reads this
    {
      shouldListen && !isListening && hasEngine && !isSpeaking && !isProcessing && !isStarting && !isStopping
    }

    /** One tick of the health check. It changes nothing, and sets its timer
        only when nothing is being spoken or processed and the engine is idle. */
    method HealthCheckTick() returns (restart: bool)
      ensures restart <==> HealthCheckRestarts()
      ensures restart ==> !isSpeaking && !isProcessing && !isListening && !isStarting && !isStopping
    {
      restart := shouldListen && !isListening && hasEngine && !isSpeaking && !isProcessing
                 && !isStarting && !isStopping;
    }

    /** The 2-second speech monitor; `synthBusy` is `speaking || pending` of
        the synthesiser. */
    method SpeechMonitorTick(synthBusy: bool) returns (restart: bool)
      modifies this`isSpeaking, this`aiResponse
      ensures old(isSpeaking) && !synthBusy ==> !isSpeaking && aiResponse == "" && (restart <==> !isProcessing && !isStarting)
      ensures !(old(isSpeaking) && !synthBusy) ==> unchanged(this`isSpeaking, this`aiResponse) && !restart
    {
      restart := false;
      if isSpeaking && !synthBusy {
        isSpeaking := false;
        aiResponse := "";
        restart := !isProcessing && !isStarting;
      }
    }

    /** `resetRecognitionFlags()`, which always sets the 1-second start timer. */
    method ResetFlags()
      modifies this`isStarting, this`isStopping, this`shouldListen, this`isListening
      ensures !isStarting && !isStopping && shouldListen && !isListening
    {
      isStarting, isStopping, shouldListen, isListening := false, false, true, false;
    }

    /** `launchGame(key, aiMode)`: opens that game and no other; games
        already open stay open. */
    method LaunchGame(key: Intent.GameId, aiMode: bool)
      modifies this`showTicTacToe, this`showTrivia, this`showSudoku, this`ticTacToeAiMode
      ensures showTicTacToe == (old(showTicTacToe) || key == Intent.TicTacToeGame)
      ensures showTrivia == (old(showTrivia) || key == Intent.TriviaGame)
      ensures showSudoku == (old(showSudoku) || key == Intent.SudokuGame)
      ensures ticTacToeAiMode == (if key == Intent.TicTacToeGame then aiMode else old(ticTacToeAiMode))
    {
      if key == Intent.TicTacToeGame {
        ticTacToeAiMode := aiMode;
        showTicTacToe := true;
      }
      if key == Intent.TriviaGame {
        showTrivia := true;
      }
      if key == Intent.SudokuGame {
        showSudoku := true;
      }
    }

    /** `speakResponse(text, game)`, up to handing the text to the
        synthesiser. */
    method Speak(text: string)
      modifies this`isSpeaking, this`aiResponse, this`speechGame
      ensures isSpeaking && aiResponse == text && speechGame == pendingGameLaunch
    {
      isSpeaking := true;
      aiResponse := text;
      speechGame := pendingGameLaunch;
    }

    /** The rest of `handleSendToGemini(text)` once `detected` is known;
        `reply` is the `response` field of the relay's answer, `None` when
        the request, its JSON or the field fails. */
    method Send(text: string, detected: Option<Intent.GameId>, reply: Option<string>)
      modifies this`isProcessing, this`transcript, this`finalTranscript, this`history,
        this`pendingGameLaunch, this`isSpeaking, this`aiResponse, this`speechGame
      ensures !isProcessing && transcript == "" && finalTranscript == ""
      ensures detected.Some? ==> pendingGameLaunch == Some(PendingGame(detected.value, true))
      ensures detected.None? ==> pendingGameLaunch == old(pendingGameLaunch)
      ensures Truthy(reply) ==>
        history == old(history) + [Message(User, text), Message(Assistant, reply.value)]
        && aiResponse == reply.value
      ensures !Truthy(reply) ==> history == old(history) && aiResponse == FailureReply
      ensures isSpeaking && speechGame == pendingGameLaunch
    {
      isProcessing := true;
      transcript := "";
      finalTranscript := "";
      var updated := history + [Message(User, text)];
      if detected.Some? {
        pendingGameLaunch := Some(PendingGame(detected.value, true));
      }
      if Truthy(reply) {
        history := updated + [Message(Assistant, reply.value)];
        Speak(reply.value);
      } else {
        Speak(FailureReply);
      }
      isProcessing := false;
    }

    /** `handleSendToGemini(text)` with `detectGameFromText(text)` computed
        before the request. */
    method HandleSendToGemini(text: string, reply: Option<string>)
      modifies this`isProcessing, this`transcript, this`finalTranscript, this`history,
        this`pendingGameLaunch, this`isSpeaking, this`aiResponse, this`speechGame
      ensures !isProcessing && transcript == "" && finalTranscript == ""
      ensures pendingGameLaunch == PendingAfter(text, old(pendingGameLaunch))
      ensures Truthy(reply) ==>
        history == old(history) + [Message(User, text), Message(Assistant, reply.value)]
        && aiResponse == reply.value
      ensures !Truthy(reply) ==> history == old(history) && aiResponse == FailureReply
      ensures isSpeaking && speechGame == pendingGameLaunch
    {
      var detected := Intent.DetectGame(text);
      Send(text, detected, reply);
    }

    /** The utterance's `onend`: speaking stops, the waiting game opens and
        is no longer pending; `restart` says whether the 1-second start
        timer was set. */
    method OnSpeechEnd() returns (restart: bool)
      modifies this`isSpeaking, this`aiResponse, this`speechGame, this`pendingGameLaunch,
        this`showTicTacToe, this`showTrivia, this`showSudoku, this`ticTacToeAiMode
      ensures !isSpeaking && aiResponse == "" && speechGame == None
      ensures old(speechGame).Some? ==> pendingGameLaunch == None
      ensures old(speechGame).None? ==> pendingGameLaunch == old(pendingGameLaunch)
      ensures old(speechGame).Some? && old(speechGame).value.game == Intent.TicTacToeGame ==>
        showTicTacToe && ticTacToeAiMode == old(speechGame).value.aiMode
      ensures old(speechGame).Some? && old(speechGame).value.game == Intent.TriviaGame ==> showTrivia
      ensures old(speechGame).Some? && old(speechGame).value.game == Intent.SudokuGame ==> showSudoku
      ensures old(speechGame).None? ==>
        showTicTacToe == old(showTicTacToe) && showTrivia == old(showTrivia) && showSudoku == old(showSudoku)
      ensures showTicTacToe == (old(showTicTacToe) || (old(speechGame).Some? && old(speechGame).value.game == Intent.TicTacToeGame))
      ensures showTrivia == (old(showTrivia) || (old(speechGame).Some? && old(speechGame).value.game == Intent.TriviaGame))
      ensures showSudoku == (old(showSudoku) || (old(speechGame).Some? && old(speechGame).value.game == Intent.SudokuGame))
      ensures !(old(speechGame).Some? && old(speechGame).value.game == Intent.TicTacToeGame) ==>
        ticTacToeAiMode == old(ticTacToeAiMode)
      ensures restart <==> !isProcessing
    {
      isSpeaking := false;
      aiResponse := "";
      if speechGame.Some? {
        LaunchGame(speechGame.value.game, speechGame.value.aiMode);
        pendingGameLaunch := None;
      }
      speechGame := None;
      restart := !isProcessing;
    }

    /** A game's `onClose`: that game closes, nothing stays pending and the
        transcripts are cleared. */
    method CloseGame(key: Intent.GameId)
      modifies this`showTicTacToe, this`showTrivia, this`showSudoku,
        this`pendingGameLaunch, this`transcript, this`finalTranscript
      ensures key == Intent.TicTacToeGame ==> !showTicTacToe
      ensures key == Intent.TriviaGame ==> !showTrivia
      ensures key == Intent.SudokuGame ==> !showSudoku
      ensures key != Intent.TicTacToeGame ==> showTicTacToe == old(showTicTacToe)
      ensures key != Intent.TriviaGame ==> showTrivia == old(showTrivia)
      ensures key != Intent.SudokuGame ==> showSudoku == old(showSudoku)
      ensures pendingGameLaunch == None && transcript == "" && finalTranscript == ""
    {
      if key == Intent.TicTacToeGame {
        showTicTacToe := false;
      } else if key == Intent.TriviaGame {
        showTrivia := false;
      } else {
        showSudoku := false;
      }
      pendingGameLaunch := None;
      transcript := "";
      finalTranscript := "";
    }
  }

  /** When the health check sets its timer, the timer's start attempt goes
      ahead once the cooldown has passed and the engine is idle. */
  lemma HealthCheckEnablesStart(s: Session, now: int, engine: EngineState)
    requires s.HealthCheckRestarts()
    requires now - s.lastRestartAttempt >= Cooldown && engine != Recording && engine != Starting
    ensures s.CanStart(now, engine)
    ensures s.shouldListen && !s.isSpeaking && !s.isProcessing
  {
  }

  predicate Truthy(s: Option<string>) { s.Some? && s.value != "" }

  /** `setPendingGameLaunch` when a game is detected in `text`, in AI mode:
      the first group whose pattern matches the normalised text becomes
      pending, and with no match the pending game stays. */
  function PendingAfter(text: string, pending: Option<PendingGame>): (r: Option<PendingGame>)
    ensures var t := Intent.Clean(text);
      (!Intent.AnyTest(Intent.TicTacPatterns(), t) && !Intent.AnyTest(Intent.TriviaPatterns(), t)
       && !Intent.AnyTest(Intent.SudokuPatterns(), t)) ==> r == pending
    ensures var t := Intent.Clean(text);
      Intent.AnyTest(Intent.TicTacPatterns(), t) ==> r == Some(PendingGame(Intent.TicTacToeGame, true))
    ensures var t := Intent.Clean(text);
      (!Intent.AnyTest(Intent.TicTacPatterns(), t) && Intent.AnyTest(Intent.TriviaPatterns(), t)) ==>
        r == Some(PendingGame(Intent.TriviaGame, true))
    ensures var t := Intent.Clean(text);
      (!Intent.AnyTest(Intent.TicTacPatterns(), t) && !Intent.AnyTest(Intent.TriviaPatterns(), t)
       && Intent.AnyTest(Intent.SudokuPatterns(), t)) ==> r == Some(PendingGame(Intent.SudokuGame, true))
  {
    Intent.DetectGameMeaning(text);
    match Intent.DetectGame(text)
    case Some(g) => Some(PendingGame(g, true))
    case None => pending
  }
}
