# OneRobo core, modelled in Dafny

OneRobo is a voice companion for children. It is a Next.js page that keeps
listening through the browser's speech recognition. It sends what the child
says to a server route, and that route asks a Gemini model for a reply. The
page speaks the reply and can open one of three games: tic-tac-toe, trivia or
Sudoku. A small service also keeps reminders in a Firestore collection.

This project models the sequential logic of those parts and proves what it
promises:

- `tictactoe.dfy`, the tic-tac-toe game of the page:
  - the winner test and the computer opponent;
  - the click handler and the computer-move timers. A timer plays on the
    board it captured, and `reset` does not cancel it. The winner agrees
    with the board and the marks alternate as long as no timer set before a
    reset is still pending (see "## Findings").
- `sudoku.dfy`, the Sudoku game:
  - the move test and the error marker;
  - the backtracking fill of the board array in place, and the puzzle maker;
  - the number pad, the Clear button and the clock text.
- `intent.dfy`, `detectGameFromText`:
  - the text normalisation;
  - every regular expression the detector uses, written out in a small
    regular-expression datatype with a backtracking matcher;
  - the proof that neither fallback branch can change the answer.
- `voice.dfy`, `getBestVoice`: a seven-tier preference search over the
  available voices.
- `session.dfy`, the recognition session of the page:
  - the flags that guard starting and stopping the engine;
  - the engine's event handlers;
  - the conversation turn (`handleSendToGemini`) and the launch of a
    detected game when the spoken reply ends.
  - A ghost log of every call to `recognition.start()` shows that two such
    calls are at least 2000 ms apart.
- `relay.dfy`, the `POST /api/gemini` route:
  - the prompt, built by a loop;
  - the reply chosen for every outcome of the upstream call.
- `reminders.dfy`, the reminder service over an in-memory map from document
  id to reminder. It covers cleanup (a batch of `completed: true` writes),
  create, list, update and delete.
- `text.dfy` holds the JavaScript string operations the others use. `wrappers.dfy`
  holds `Option` and `Result`.

Inputs take the place of every side effect:

- Timestamps are integer parameters (`now`).
- The outcomes of the network calls are datatypes passed in: the relay's
  answer for the page, and the Gemini response or exception for the route.
- The engine's `state` property and whether `start()` or `stop()` throws
  are parameters.
- The two `getVoices()` results are parameters.
- Firestore is a map. The id `addDoc` picks is a parameter that must be
  fresh.
- `Math.random` becomes a nondeterministic choice: the corner, the free
  square, the number shuffle and the cells blanked.

Every shuffle and every pick that the source can make is allowed.

The detector has one notable consequence, proved as `Intent.DetectGameMeaning`:

- The play-verb fallback (app/page.tsx:1368-1376) and the "game" fallback
  (1379-1383) can never change the answer.
- The text after a play verb sits in the normalised text between spaces, so
  any synonym pattern that matches it also matches the whole normalised text.
- The "game" fallback re-tests the text the direct pass already tested.

So the result is just the first group (tic-tac-toe, then trivia, then
Sudoku) with a pattern matching the normalised text.

## Model

| member | source | states |
|---|---|---|
| Text.ToLower | app/page.tsx:1337 | Each character is mapped on its own: upper-case ASCII letters become lower case and every other character is kept. |
| Text.Trim | app/api/gemini/route.ts:17 | The result has no `\s` character at either end. |
| Text.TrimIsSlice | app/api/gemini/route.ts:17 | The result is a slice of the input with only `\s` characters before and after it. |
| Text.NatToStringDenotes | app/page.tsx:470-474 | The decimal text of `n` is non-empty, all digits, reads back as `n`, has no leading zero, and has one digit exactly when `n < 10`. |
| TicTacToe.ScanLinesMeaning | app/page.tsx:18-22 | Scanning lines from `k` on: a mark is returned only for the first complete line; no mark exactly when no line is complete; 'Draw' exactly when no line is complete and the board is full. |
| TicTacToe.CalculateWinnerMeaning | app/page.tsx:12-23 | A mark only when that mark fills one of the 8 lines (the first complete one); a mark exactly when some line is complete; 'Draw' exactly when no line is complete and every square is filled; null exactly when no line is complete and some square is empty. |
| TicTacToe.FirstWinningSquare | app/page.tsx:29-35 | The loop's result is the lowest empty square on which `m` would win, and there is none exactly when no empty square wins. |
| TicTacToe.GetAiMove | app/page.tsx:25-58 | A square is returned exactly when one is empty, and it is an `AiChoice`: empty and chosen by a strict priority. That priority is the first winning square for 'O'; else the first square blocking 'X'; else the centre; else a free corner; else any free square. |
| TicTacToe.CountPlace | app/page.tsx:67-68 | Filling an empty square raises that mark's count by one and leaves the other mark's count alone. |
| TicTacToe.Game.constructor | app/page.tsx:7-10 | Empty board, 'X' to move, no winner, not thinking, no computer move pending; the game is settled. |
| TicTacToe.Game.Click | app/page.tsx:61-116 | A filled square, a decided game or the computer's turn change nothing. Otherwise the current mark is placed. A move that decides the game sets the winner and reports the end result in computer mode with a callback. Otherwise, in computer mode after 'X', the board is captured for a computer move and thinking starts; else the turn passes. A settled game stays settled. |
| TicTacToe.Game.AiTurn | app/page.tsx:89-112 | The timer for captured board `t` fires. Its board leaves the pending list. The board shown becomes the captured board plus an 'O' on a square that is an `AiChoice` for it. If that decides the game, the winner is set, the turn is kept and the end result is reported when a callback is set. Otherwise 'X' moves next and the old winner stays. Thinking ends, and a settled game stays settled. |
| TicTacToe.Game.Reset | app/page.tsx:118-123 | Empty board, 'X' to move, no winner, not thinking. The pending computer moves are kept. With none pending the game is settled. |
| TicTacToe.Game.ResetCancelling | app/page.tsx:118-123 | Reset that also cancels the pending computer moves: the game is settled afterwards, from any state. |
| TicTacToe.StaleMoveUndoesReset | app/page.tsx:89-123 | In computer mode, a click on square 0 followed by Reset before the timer fires ends with the 'X' back on square 0. |
| Sudoku.BoxStartMeaning | app/page.tsx:355-356 | A position lies in the 3-wide band starting at `floor(i/3)*3` exactly when it has the same third as `i`. |
| Sudoku.ValidMoveMeansNoPeer | app/page.tsx:343-364 | `isValidMove(b, r, c, n)` holds exactly when no other cell of row `r`, column `c` or the 3x3 box of (r, c) holds `n`. |
| Sudoku.HasErrorMeaning | app/page.tsx:477-485 | A cell is marked exactly when it holds a non-zero number that is not a valid move there. Equivalently, another cell of its row, column or box holds the same number: blanking the cell first makes no difference. |
| Sudoku.PlaceKeepsConsistent | app/page.tsx:379-381 | Placing a number where it is a valid move keeps a board without clashes clash-free. |
| Sudoku.BlankingKeepsConsistent | app/page.tsx:407-413 | A grid that agrees with a clash-free grid on all its filled cells is clash-free. |
| Sudoku.FindBlank | app/page.tsx:375-377 | The nested loops find the first empty cell in reading order, or report that there is none exactly when the board is full. |
| Sudoku.FillBoard | app/page.tsx:374-391 | Backtracking in place. On success the board is full, every filled cell is kept, and the board is clash-free if it was. On failure the array is exactly as before. |
| Sudoku.GeneratePuzzle | app/page.tsx:394-416 | The solution is full and clash-free. The puzzle agrees with it on every cell it has not blanked, so it is clash-free too. Exactly 40, 50 or 60 cells are blank for easy, medium or hard. |
| Sudoku.FormatTime | app/page.tsx:470-474 | The text is `n.toString()` of the whole minutes (no leading zero), a colon and two digits of seconds below 60. The two parts read back as `60 * minutes + seconds == seconds input`. |
| Sudoku.Game.constructor | app/page.tsx:311-319 | Empty boards, no selection, no mistakes, not complete, not started, easy, clock at zero. |
| Sudoku.Game.StartNewGame | app/page.tsx:419-430 | The board and the prefilled board are the new puzzle. It has the difficulty's number of blanks and no clashes, and some full clash-free grid agrees with every clue. Selection, mistakes, completion and clock are reset, and the game is started. |
| Sudoku.Game.CellClick | app/page.tsx:433-436 | A prefilled cell cannot be selected; any other cell becomes the selection. |
| Sudoku.Game.NumberInput | app/page.tsx:439-467 | With no selection or a prefilled one nothing changes. Only the selected cell changes: its own number clears it, any other number is placed. `mistakes` rises by exactly one when that number is not a valid move. A full board completes the game and stops it. Prefilled cells always keep their numbers. |
| Sudoku.Game.ClearCell | app/page.tsx:605-612 | The selected cell is blanked unless it is prefilled; nothing else changes. |
| Intent.CollapseShape | app/page.tsx:1339 | Collapsing runs of `\s` leaves only `[a-z0-9 ]`, never two spaces in a row, and starts with a space exactly when the input does. |
| Intent.CleanIsClean | app/page.tsx:1337-1339 | The normalised text holds only `[a-z0-9 ]`, with no leading, trailing or doubled space. |
| Intent.MatchTransfers | app/page.tsx:1370-1383 | A match of a pattern sequence inside a piece of text whose neighbours are not word characters is a match at the same place in the whole text (`\b` reads the same at every position of the piece). |
| Intent.GroupTransfers | app/page.tsx:1371-1375 | If no group matches the whole text, no group matches such a piece of it. |
| Intent.CandidateEmbedded | app/page.tsx:1369-1370 | The trimmed capture after a play verb is a piece of the normalised text between non-word characters. |
| Intent.DetectGameMeaning | app/page.tsx:1336-1386 | The detector returns the first group that matches the normalised text: tic-tac-toe over trivia over Sudoku. It returns null exactly when no pattern of the three groups matches. |
| Voice.Rank | app/page.tsx:1523-1571 | The best tier a voice passes, with all better tiers failing. |
| Voice.Find | app/page.tsx:1524-1566 | `voices.find`: the first voice passing a tier's test, or none exactly when no voice passes it. |
| Voice.PickFromMeaning | app/page.tsx:1523-1571 | The chain of searches returns the earliest voice of the best tier present in the list, falling back to the first voice. |
| Voice.GetBestVoiceMeaning | app/page.tsx:1507-1574 | Null exactly when both `getVoices()` calls return nothing. Otherwise the result is a member of the list used (the first call's when it is not empty), of the best tier present, and the first such in list order. |
| Session.SpacedApart | app/page.tsx:966-970 | When consecutive start attempts are at least 2000 ms apart, attempts `i < j` are at least `2000 * (j - i)` ms apart. |
| Session.TranscriptsSplitResults | app/page.tsx:1112-1118 | Every result's text goes to exactly one of the final and interim transcripts. With no final result the final transcript is empty, and with no interim result the interim one is. |
| Session.CollectTranscripts | app/page.tsx:1109-1118 | The loop from `resultIndex` computes the concatenated final and interim transcripts. |
| Session.PendingAfter | app/page.tsx:1396-1401 | The first group with a pattern matching the normalised text (tic-tac-toe, then trivia, then Sudoku) becomes the pending launch in computer mode. With no match the pending launch is unchanged. |
| Session.Session.constructor | app/page.tsx:940-946 | Not listening, starting or stopping, permitted to listen, no start attempt yet. Not speaking or processing, empty history, nothing pending, no game open. |
| Session.Session.Start | app/page.tsx:976-1029 | `recognition.start()` is called exactly when `canStartRecognition` holds: an engine, not recording or starting, 2000 ms since the last attempt, not listening, not starting, permitted to listen. The call stamps the attempt time and is logged. Any throw clears `isStarting`; an `InvalidStateError` whose stop succeeds sets listening. Only other errors and non-errors set the retry timer. Otherwise nothing changes. Nothing but the starting and listening flags, the attempt time and the log is written, and consecutive logged attempts stay 2000 ms apart. |
| Session.Session.Stop | app/page.tsx:1032-1051 | `isStopping` is set only when listening and not already stopping, and cleared again when `stop()` throws. |
| Session.Session.OnStart | app/page.tsx:1095-1101 | Listening, not starting, both transcripts empty. |
| Session.Session.OnResult | app/page.tsx:1103-1142 | Ignored while speaking or processing. Otherwise the final transcript is stored and the shown transcript is the final text, else the interim. The silence timer is re-armed exactly for non-blank interim text with no final text. Non-blank final text is sent at once. |
| Session.Session.OnSilenceTimeout | app/page.tsx:1130-1135 | Sends the stored final transcript, else the captured interim text, when it is not blank and the page is neither processing nor speaking. |
| Session.Session.OnEnd | app/page.tsx:1144-1160 | All three engine flags are cleared. A restart is scheduled exactly when listening is permitted and the page is neither speaking nor processing. |
| Session.Session.OnError | app/page.tsx:1162-1183 | As `OnEnd`, but a `not-allowed` error never schedules a restart. |
| Session.Session.Teardown | app/page.tsx:1190-1198 | Not starting, not stopping, listening no longer permitted. |
| Session.Session.HealthCheckTick | app/page.tsx:1255-1277 | The 5-second check writes nothing. It sets its restart timer exactly when listening is permitted, the engine exists and is neither listening, starting nor stopping, and nothing is being spoken or processed. |
| Session.HealthCheckEnablesStart | app/page.tsx:1258-1272 | When the check sets its timer, the timer's start attempt is allowed by `canStartRecognition` once the cooldown has passed and the engine is idle. |
| Session.Session.GateEffect | app/page.tsx:1202-1223 | Listening is permitted exactly when the page is neither processing nor speaking. When permitted, a start is scheduled exactly when idle with no start or stop under way. Otherwise a running engine not already stopping is stopped. |
| Session.Session.SpeechMonitorTick | app/page.tsx:1233-1249 | When the page believes it is speaking but the synthesiser is idle, speaking ends and the reply text is cleared. A restart is then scheduled exactly when not processing and not starting. Otherwise nothing changes. |
| Session.Session.ResetFlags | app/page.tsx:786-797 | Not starting, not stopping, permitted to listen, not listening. |
| Session.Session.LaunchGame | app/page.tsx:1318-1334 | Opens exactly the named game (with its computer mode for tic-tac-toe); every other game's flag is unchanged. |
| Session.Session.Speak | app/page.tsx:1424-1428 | Speaking, showing the text, and the utterance carries the pending game. |
| Session.Session.Send | app/page.tsx:1388-1419 | Once the detection is known: transcripts cleared and a detected game pending. With a usable reply the history becomes the old history plus the user turn and the reply, and the reply is spoken. Otherwise the history is unchanged and exactly 'Sorry, I had trouble understanding that.' is spoken. Processing is off afterwards. |
| Session.Session.HandleSendToGemini | app/page.tsx:1388-1419 | The same, with the pending game taken from `detectGameFromText(text)`. |
| Session.Session.OnSpeechEnd | app/page.tsx:1588-1607 | Speaking ends and the reply text is cleared. The game the utterance carries is opened (with its mode for tic-tac-toe) and is no longer pending; every other game flag and the mode otherwise keep their values. A restart is scheduled exactly when not processing. Nothing else is written. |
| Session.Session.CloseGame | app/page.tsx:1834-1851 | The closed game's flag is cleared and the others are kept; nothing stays pending and both transcripts are cleared. |
| Relay.InstructionsFromFile | app/api/gemini/route.ts:14-20 | The default text when the file cannot be read; otherwise the file's contents with only the `\s` characters at both ends removed. |
| Relay.HistoryLinesAppend | app/api/gemini/route.ts:25-28 | The rendering of two runs of turns is the rendering of the first followed by that of the second. |
| Relay.HistoryLinesAreTurnLines | app/api/gemini/route.ts:25-28 | Turn `k` is rendered as exactly one line `ROLE: content`, between the lines of the turns before it and those after it, in the original order. ROLE is 'CHILD' exactly for the role `user`, otherwise 'ONEROBO'. |
| Relay.PromptShape | app/api/gemini/route.ts:22-30 | The prompt starts with the instructions and ends with the quoted child message and the '1-3 sentences' instruction. The history header follows the instructions for a non-empty history array; otherwise nothing lies between instructions and message. |
| Relay.AppendTurns | app/api/gemini/route.ts:25-28 | The loop appends the lines of all turns, in order. |
| Relay.BuildPrompt | app/api/gemini/route.ts:22-30 | The string built step by step is the prompt. |
| Relay.UpstreamReply | app/api/gemini/route.ts:49-64 | A non-empty text always. An `AbortError` gives the 'took too long' text, and only it. Any other exception, or a body that is not JSON, gives "Sorry, I couldn't process that.". Not-ok gives "Sorry, I'm having trouble right now.". Ok gives the candidate text, or "I'm sorry, I didn't understand that." when there is none. |
| Relay.Post | app/api/gemini/route.ts:5-65 | Status 400 with 'Message is required' exactly for a missing or empty message, without calling upstream. A body that is not JSON gives the 'couldn't process' reply. With no key the echo text is returned without an upstream call. With a key the prompt is sent and the reply chosen by the outcome. Every non-400 response is 200 with a non-empty `response`. |
| Reminders.CleanupMeaning | app/services/reminderService.ts:40-48 | Cleanup keeps every key and writes nothing but `completed`. A reminder changes exactly when it is examined, does not repeat, is not completed and its time has passed. |
| Reminders.CleanupIdempotent | app/services/reminderService.ts:45 | A second cleanup at the same time changes nothing, and afterwards no examined reminder is due. |
| Reminders.CollectBatch | app/services/reminderService.ts:40-48 | The loop over the snapshot puts into the batch exactly the due reminders of the snapshot. |
| Reminders.OrderNewestFirst | app/services/reminderService.ts:89-98 | The listing holds every queried document exactly once, paired with its data, ordered by `createdAt` descending. |
| Reminders.Apply | app/services/reminderService.ts:106-114 | Every field not given keeps its value; an empty update changes nothing. |
| Reminders.ApplyIdempotent | app/services/reminderService.ts:109 | Applying the same update twice is applying it once, and each of the six fields that is given takes the given value. |
| Reminders.Store.Cleanup | app/services/reminderService.ts:30-55 | The store becomes the cleaned-up store: due reminders among those with the given user id (all when none) are marked completed. |
| Reminders.Store.Create | app/services/reminderService.ts:58-78 | A date and time that do not parse store nothing and fail. Otherwise exactly one new document is stored under the fresh id, not completed, created now. It carries a `userId` exactly when a non-empty one is given. |
| Reminders.Store.GetReminders | app/services/reminderService.ts:81-103 | Cleanup runs first. The result lists each of that user's reminders exactly once, newest first, and none of them is a past, incomplete, one-off reminder. |
| Reminders.Store.Update | app/services/reminderService.ts:106-114 | A missing document fails and nothing changes; otherwise only that document changes, by the given fields. |
| Reminders.Store.Delete | app/services/reminderService.ts:117-125 | Only that id is removed; a missing id is not an error. |

## Left out

- Rendering (JSX, SVG, styles), the stars, the mouth animation and the Sudoku clock's `setInterval` are left out as display only. So is the trivia game, whose questions come from a separate route.
- Timer durations are not modelled. A method that sets a timer returns that fact, and the timer's callback is a separate method (`AiTurn`, `OnSilenceTimeout`, or `Start` for every restart timer). Only the 2000 ms cooldown comparison takes part in the proofs.
- Concurrency and `await` are not modelled. React batching and stale closures are not modelled either: handlers read the current state where the source's closures may read the values of the first render. Only one set of engine handlers is modelled, not the copy in `reinitializeRecognition` (app/page.tsx:799-925).
- Session.Session.Send and Session.Session.HandleSendToGemini: the request to `/api/gemini` and its JSON are one input, `reply`. The handler's other steps run as one atomic step, so events that arrive while the request is in flight are not modelled.
- Session.Session.Speak: the synthesiser paths of `speakResponse` and `startSpeech` are not modelled: voice loading, the cancel and 150 ms delay, the emergency, error and silent-failure timers, and `utter.onerror`. Only the normal end of an utterance is modelled (`OnSpeechEnd`). These paths can open a game twice, so no "game opened once" property is claimed.
- Session.Session.LaunchGame: it does not close the other games, so no "at most one game open" property is claimed.
- The engine's `state`, the exceptions of `start()` and `stop()`, and the synthesiser's busy state are inputs. The engine's construction and its `continuous`/`interimResults`/`lang` settings are left out.
- Text.ToLower: only ASCII letters are mapped; JavaScript's full Unicode case mapping is not modelled. This changes results: JavaScript lower-cases some other characters to ASCII letters, such as the Kelvin sign U+212A to 'k'. The source then detects "sudo\u212Au" as Sudoku, and the model does not.
- TicTacToe.Game.Click and TicTacToe.Game.AiTurn: the winner's agreement with the board and the alternation of the marks are promised only from a settled game. After a reset while a computer move is pending, the stale move can show a board without a winner next to a stored winner, and the model keeps that state as the source does.
- Sudoku.FillBoard: success from an empty board is not proved. The model proves what any outcome of the backtracking search guarantees. Sudoku.GeneratePuzzle returns no puzzle where the fill fails; the source would then pick cells forever.
- Sudoku.GeneratePuzzle: random picks of cells that are already blank change nothing in the source and are not modelled as steps.
- Relay.Post: a `message` that is truthy but not a string is not modelled; `message` is a string or absent. A `conversationHistory` entry's `role` and `content` are strings. Reading the instructions file, the API key and the upstream fetch are inputs. So is the 8-second abort, which appears as its `AbortError`.
- Reminders.Store.Create: parsing `${date}T${time}` and rendering the ISO string are left out. Timestamps are integers, and a date that does not parse is the `None` input.
- Reminders.Store.Update: an `id` field inside the partial update is not modelled. Firestore would store it as data, and the listing's spread would then let it override the document id.
- Reminders.OrderNewestFirst: the order of reminders with equal `createdAt` is left open. Firestore's tie order, its batch limits and its failures are not modelled.
- The voice-loading effect, the language string table and the `ReminderForm`/`ReminderList` components are not part of this model.

## Findings

| source | as written | input that shows it | evidently intended | confidence | as-written member | corrected member |
|---|---|---|---|---|---|---|
| app/page.tsx:89-123 | `reset` clears the board but not the computer-move timer, which later shows its captured board plus an 'O' | computer mode: click square 0, then Reset within 0.8 s; the board comes back with 'X' on square 0 and the computer's 'O' | Reset cancels the pending computer move and leaves a settled empty game | not executed; high | TicTacToe.StaleMoveUndoesReset | TicTacToe.Game.ResetCancelling |
