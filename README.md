# Portfolio site: the state machines behind the views

The portfolio is a React site made mostly of rendering. Its behaviour lives in
a few small, sequential state machines, and this project models them in Dafny
and proves their properties:

- **Terminal view** (`Terminal`). There is an input line and a transcript of
  `(command, output)` entries. On Enter the line is trimmed and lower-cased,
  then dispatched over a fixed command table, and the line is cleared. `clear`
  empties the transcript. Every other input appends exactly one entry, and
  that includes a blank line. Outputs are abstract tags, not markup.
- **Shooting game** (`ShootingGame`). One `gameState` record holds the score,
  the revealed sections, the current target, the started flag and the
  crosshair. Target hits, start, reset and mouse moves replace it. A revealed
  target ignores clicks. The HUD shows a victory banner and five status dots.
- **Typewriter effect** (`Typewriter`). A phrase is typed one character per
  tick, the effect pauses, the phrase is deleted one character per tick, and
  then the next phrase starts, cyclically. Both exported variants are modelled.
- **Home page** (`Page`). It restores the saved view from `localStorage`,
  shows the selector until a view is chosen, and picks the content view by
  exact string equality. Every selection is persisted.
- **View toggle** (`ViewToggle`) switches between the terminal and parallax views.
- **Theme toggle** (`ThemeToggle`). The initial theme comes from the hour of
  the day unless a theme is saved. A click flips dark/light and saves the new theme.
- **Contact form** (`ContactForm`). Fields are updated by id. Submission runs
  in two stages: start, then success or error.

`localStorage` is a `map<string, string>` (`Storage.Store`). It is passed in
and returned, never held globally. `getItem` results go through JavaScript
string truthiness (`Storage.Truthy`: `null` and `""` are falsy). Each timer is
an explicit step:
- the typewriter's tick timeout and its 1500 ms pause timeout;
- the contact form's simulated network delay, which separates `StartSubmit`
  from `SettleSubmit`.

Each stateful component is a class whose fields are the component's state.
Each class method is tied to a pure transition function on the state's value,
for example `Snapshot() == Step(old(Snapshot()), e)`. A `Valid()` invariant is
preserved where the code keeps one. The lemmas are stated about the
transition functions: single steps, and whole runs of events by induction.

Three facts about the terminal shape its model:
- Only Enter is acted on. There is no command-history recall, no arrow-key
  handling and no Tab completion.
- A blank Enter appends `("", Empty)`.
- The recognised commands are exactly the eight cases of the `switch`: `help`,
  `whoami`, `achievements`, `projects`, `skills`, `competitive`, `contact` and
  `clear`.

The event-level `Step` functions also account for what the page lets a
user do:
- The shooting game's HUD shows only one of Start and Reset at a time.
- The browser fires the contact form's `submit` event only when:
  - the submit button is enabled;
  - every `required` field is non-empty;
  - the e-mail field holds a valid address.
- Only a submission in flight can settle.

The class methods model the handlers themselves, which check none of this.

## Model

| member | source | states |
|---|---|---|
| `Terminal.Trim` | components/terminal-view.tsx:82 | `trim` keeps the run of `s` between its leading and trailing JavaScript whitespace; the result is empty exactly when `s` is all whitespace, and otherwise starts and ends with a non-whitespace character |
| `Terminal.Lower` | components/terminal-view.tsx:82 | `toLowerCase` keeps the length and lowers each character (ASCII capitals and KELVIN SIGN) |
| `Terminal.Normalize` | components/terminal-view.tsx:82 | `cmd.trim().toLowerCase()`; specified by `Trim`, `Lower` and `NormalizeIdempotent` |
| `Terminal.NormalizeIdempotent` | components/terminal-view.tsx:82 | trimming then lower-casing a command that is already normalised changes nothing |
| `Terminal.NormalizeExample` | components/terminal-view.tsx:82 | `"  HeLp "` normalises to `"help"` and dispatches as `help` |
| `Terminal.Dispatch` | components/terminal-view.tsx:85-337 | the `switch (command)`, from a normalised command to clearing or the output to append; specified by `DispatchTable` |
| `Terminal.AfterCommand` | components/terminal-view.tsx:81-340 | the transcript after `processCommand(cmd)`; specified by `ClearEmptiesTranscript`, `OtherCommandAppendsOne` and `AfterCommandWellFormed` |
| `Terminal.ShowsPrompt` | components/terminal-view.tsx:362-367 | an entry renders its prompt line exactly when its command is non-empty; see `WellFormedEntries` |
| `Terminal.Step` | components/terminal-view.tsx:69-79 | `handleInputChange` and `handleKeyDown` on the session; specified by `EnterProcessesInput` and `OtherKeysIgnored` |
| `Terminal.DispatchTable` | components/terminal-view.tsx:85-337 | `clear` and only `clear` empties the transcript; `""` and only `""` gives the empty output; each of the seven content commands gives its own output; no command yields the welcome output; a command is echoed as not found exactly when it is non-empty and outside the eight recognised commands |
| `Terminal.UnknownCommandEchoed` | components/terminal-view.tsx:331-339 | an unrecognised non-empty input appends one entry whose command and not-found echo are both the normalised input |
| `Terminal.CompetitiveCodingNotFound` | components/terminal-view.tsx:104 | input that normalises to "competitive coding" (the label the help text shows) is not a command and is echoed as not found |
| `Terminal.ClearEmptiesTranscript` | components/terminal-view.tsx:323-325 | `clear` in any spacing or case leaves the transcript empty and appends no entry |
| `Terminal.OtherCommandAppendsOne` | components/terminal-view.tsx:339 | any other input grows the transcript by exactly one entry, keeps all earlier entries, and the new entry's command is the normalised input |
| `Terminal.BlankInputAppendsEmpty` | components/terminal-view.tsx:327-329 | empty or whitespace-only input is not skipped: it appends `("", Empty)`, which shows no prompt line |
| `Terminal.RepeatAppendsIdentical` | components/terminal-view.tsx:81-340 | dispatch keeps no state: processing the same non-clear input `n` times appends `n` identical entries after the unchanged transcript |
| `Terminal.EnterProcessesInput` | components/terminal-view.tsx:73-79 | after Enter the input line is `""` and the transcript is the result of processing the line as it stood before the key |
| `Terminal.OtherKeysIgnored` | components/terminal-view.tsx:73-79 | any key other than Enter changes neither the input nor the transcript |
| `Terminal.InitialTranscriptWellFormed` | components/terminal-view.tsx:21-36 | the mounted transcript is exactly one welcome entry with command `""`, which shows no prompt, and it is well formed |
| `Terminal.AfterCommandWellFormed` | components/terminal-view.tsx:81-340 | processing any input keeps every entry either the leading welcome or a normalised command paired with its dispatched output |
| `Terminal.RunWellFormed` | components/terminal-view.tsx:69-79 | every sequence of input changes and key presses keeps the transcript well formed |
| `Terminal.WellFormedEntries` | components/terminal-view.tsx:362-367 | in a well-formed transcript the welcome entry can only be first; an entry lacks a prompt line exactly when it is the welcome or a blank entry; a not-found entry echoes its own command |
| `Terminal.TerminalView.constructor` | components/terminal-view.tsx:14-36 | a mounted terminal has an empty input line and the welcome transcript |
| `Terminal.TerminalView.HandleInputChange` | components/terminal-view.tsx:69-71 | replaces the input line and keeps the transcript and the invariant |
| `Terminal.TerminalView.HandleKeyDown` | components/terminal-view.tsx:73-79 | acts as `Step` on a key press: Enter processes the line and clears it, other keys do nothing |
| `Terminal.TerminalView.ProcessCommand` | components/terminal-view.tsx:81-340 | sets the transcript to `AfterCommand` of the old one and keeps it well formed |
| `ShootingGame.Hit` | components/shooting-game-portfolio.tsx:597-603 | `handleHit`'s updater; specified by `HitEffect` |
| `ShootingGame.Start` | components/shooting-game-portfolio.tsx:605-607 | `handleStartGame`'s updater; specified by `StartAndReset` |
| `ShootingGame.Reset` | components/shooting-game-portfolio.tsx:609-617 | `handleResetGame`'s literal record; specified by `StartAndReset` |
| `ShootingGame.MouseMove` | components/shooting-game-portfolio.tsx:576-595 | the mouse-move listener, attached only while started; specified by `MouseMoveEffect` |
| `ShootingGame.TargetClick` | components/shooting-game-portfolio.tsx:66-72 | `TargetSection`'s click guard; specified by `TargetClickGuard` |
| `ShootingGame.Step` | components/shooting-game-portfolio.tsx:451-465 | a player action, with only the shown HUD button clickable; specified by `HudButtons` and `StepConsistent` |
| `ShootingGame.ShowsVictory` | components/shooting-game-portfolio.tsx:469 | the victory banner's condition; see `VictoryCondition` |
| `ShootingGame.DotLit` | components/shooting-game-portfolio.tsx:677 | dot `i` is green when `size > i`; see `LitDotCount` |
| `ShootingGame.ShowsStartButton` | components/shooting-game-portfolio.tsx:451 | Start shows before the game starts, Reset after; see `StartAndReset` and `HudButtons` |
| `ShootingGame.ShowsCrosshair` | components/shooting-game-portfolio.tsx:646 | the crosshair shows while started; see `StartAndReset` |
| `ShootingGame.HitEffect` | components/shooting-game-portfolio.tsx:597-603 | a hit adds exactly 100 to the score and inserts the id; the current target, started flag and crosshair stay as they were |
| `ShootingGame.TargetClickGuard` | components/shooting-game-portfolio.tsx:66-72 | a click on a revealed target changes no game state; a click on an unrevealed one is a hit |
| `ShootingGame.StartAndReset` | components/shooting-game-portfolio.tsx:605-617 | start sets the started flag and nothing else, swapping Start for Reset and showing the crosshair; reset from any state gives the initial state: score 0, nothing revealed, no target, not started, crosshair (0,0) |
| `ShootingGame.MouseMoveEffect` | components/shooting-game-portfolio.tsx:577-595 | a mouse move replaces only the crosshair position, and only while the game is started (the listener is attached only then) |
| `ShootingGame.SectionIdsCount` | components/shooting-game-portfolio.tsx:525-533 | the scene's five section ids are distinct |
| `ShootingGame.RevealedBound` | components/shooting-game-portfolio.tsx:525-533 | any set of revealed scene ids has at most five elements, and five only when it is all of them |
| `ShootingGame.StepConsistent` | components/shooting-game-portfolio.tsx:597-617 | each hit through a target click, HUD button click or mouse move keeps score = 100 × revealed, revealed ⊆ scene ids, and no current target |
| `ShootingGame.RunConsistent` | components/shooting-game-portfolio.tsx:559-617 | when hits come only from target clicks, every reachable state has score = 100 × revealed, ids from the scene, and `currentTarget` null |
| `ShootingGame.ReachableBounds` | components/shooting-game-portfolio.tsx:559-565 | from the initial state, every reachable state has at most five revealed sections, a score in [0, 500] and no current target |
| `ShootingGame.VictoryCondition` | components/shooting-game-portfolio.tsx:418-474 | in a reachable state the victory banner shows exactly when all five sections are revealed, exactly when the score is 500, and exactly when all five dots are lit |
| `ShootingGame.LitDotCount` | components/shooting-game-portfolio.tsx:673-678 | in a reachable state the lit dots are exactly the first `|sectionsRevealed|` of the five, so their number is the number of revealed sections |
| `ShootingGame.HudButtons` | components/shooting-game-portfolio.tsx:451-465 | Start acts only before the game starts and Reset only after it; the button not shown changes nothing; Reset, when shown, gives the initial state |
| `ShootingGame.ShootingGamePortfolio.constructor` | components/shooting-game-portfolio.tsx:559-565 | the game starts in the initial state, which is consistent |
| `ShootingGame.ShootingGamePortfolio.HandleHit` | components/shooting-game-portfolio.tsx:597-603 | replaces the state by `Hit` of the old state |
| `ShootingGame.ShootingGamePortfolio.HandleStartGame` | components/shooting-game-portfolio.tsx:605-607 | replaces the state by `Start` of the old state, keeping the invariant |
| `ShootingGame.ShootingGamePortfolio.HandleResetGame` | components/shooting-game-portfolio.tsx:609-617 | replaces the state by the initial state, whatever it was |
| `ShootingGame.ShootingGamePortfolio.HandleMouseMove` | components/shooting-game-portfolio.tsx:575-595 | replaces the state by `MouseMove` of the old state, keeping the invariant |
| `ShootingGame.ShootingGamePortfolio.HandleTargetClick` | components/shooting-game-portfolio.tsx:66-72 | calls `handleHit` only for an unrevealed target and keeps the invariant |
| `Typewriter.Substring` | components/typewriter-effects.tsx:16 | `substring(0, end)` is the prefix of length `end` clamped to `[0, length]`, so `substring(0, -1)` is `""` |
| `Typewriter.TickStep` | components/typewriter-effects.tsx:14-26 | the tick callback; specified by `TypingTick`, `TypingTickAtEnd`, `DeletingTick` and `TickConsistent` |
| `Typewriter.PauseStep` | components/typewriter-effects.tsx:18 | one pending pause timeout firing; specified by `PauseFiresUnconditionally` |
| `Typewriter.TickDelay` | components/typewriter-effects.tsx:28 | the tick timeout of `isDeleting ? 50 : 100`; see `CycleDuration` |
| `Typewriter.TicksDuration` | components/typewriter-effects.tsx:28 | the time a run of ticks takes; see `TypingDuration`, `DeletingDuration` and `CycleDuration` |
| `Typewriter.TickConsistent` | components/typewriter-effects.tsx:10-32 | a tick or a pause timeout keeps the index below the number of phrases and the text a prefix of the current phrase |
| `Typewriter.RunConsistent` | components/typewriter-effects.tsx:10-32 | every run of ticks and pause timeouts keeps that invariant |
| `Typewriter.Ticks` | components/typewriter-effects.tsx:10-32 | any number of ticks from a consistent state ends in a consistent state |
| `Typewriter.TypingTick` | components/typewriter-effects.tsx:15-16 | a typing tick short of the full phrase appends exactly the phrase's next character and changes nothing else |
| `Typewriter.TypingTickAtEnd` | components/typewriter-effects.tsx:15-19 | a typing tick at full length keeps the text and adds one pending pause timeout, even when others are pending; when one fires, deleting starts |
| `Typewriter.PauseFiresUnconditionally` | components/typewriter-effects.tsx:18 | a pending pause timeout sets `isDeleting` whatever the text and phrase are by then, and one fewer is pending; with none pending nothing fires |
| `Typewriter.DeletingTick` | components/typewriter-effects.tsx:20-25 | a deleting tick drops the last character; at length 0 it leaves `""`, clears `isDeleting` and moves to `(index + 1) mod n`, wrapping from the last phrase to 0 |
| `Typewriter.TypesWholePhrase` | components/typewriter-effects.tsx:13-29 | from any typed prefix, `|phrase| - |text|` typing ticks give the whole phrase, still typing |
| `Typewriter.DeletesWholeText` | components/typewriter-effects.tsx:20-26 | while deleting, `|text|` ticks empty the text without changing phrase |
| `Typewriter.FullCycle` | components/typewriter-effects.tsx:10-32 | from the empty text of phrase `i` with no pause pending: `|p|+1` ticks, then the pause, then `|p|+1` ticks give the empty text of phrase `(i+1) mod n`, typing again with no pause pending |
| `Typewriter.TypingDuration` | components/typewriter-effects.tsx:15-28 | typing ticks never start deleting, so `n` of them take `100 n` ms |
| `Typewriter.DeletingDuration` | components/typewriter-effects.tsx:20-28 | up to `|text| + 1` deleting ticks take 50 ms each |
| `Typewriter.CycleDuration` | components/typewriter-effects.tsx:10-32 | the cycle of `FullCycle` takes `100 (|p|+1) + 1500 + 50 (|p|+1)` ms |
| `Typewriter.StalePauseSkipsPhrase` | components/typewriter-effects.tsx:17-18 | as written, with phrases `ab` and `cd`, two full-length ticks leave two pauses pending; the second fires after the switch to `cd` and deletes its empty text, and the next tick is back at `ab` with `cd` never typed |
| `Typewriter.ClearedTickStep` | components/typewriter-effects.tsx:14-26 | the tick with the pause timeout cleared by the effect's cleanup: a full-length tick replaces the pending pause instead of adding one |
| `Typewriter.ClearedStepSound` | components/typewriter-effects.tsx:14-26 | with the pause cleared, a tick or a pause keeps at most one pause pending, and only while the whole phrase is typed |
| `Typewriter.ClearedDeletesOnlyWholePhrases` | components/typewriter-effects.tsx:10-32 | with the pause cleared, in every run a pause that fires starts deleting the whole current phrase |
| `Typewriter.ClearedTypesEveryPhrase` | components/typewriter-effects.tsx:10-32 | with the pause cleared, the run that skips `cd` as written arrives at `cd`, typing, with no pause pending |
| `Typewriter.TypewriterEffect.constructor` | components/typewriter-effects.tsx:5-8 | starts with `""`, index 0, typing, and consistent |
| `Typewriter.TypewriterEffect.Tick` | components/typewriter-effects.tsx:13-29 | one tick is `TickStep`, counting every pause timeout a full-length tick schedules, and keeps the invariant |
| `Typewriter.TypewriterEffect.PauseElapsed` | components/typewriter-effects.tsx:18 | one pending pause timeout firing is `PauseStep` and keeps the invariant |
| `Typewriter.TypewriterEffectWithGlitch.constructor` | components/typewriter-effects.tsx:42-46 | starts in the same state as the plain variant |
| `Typewriter.TypewriterEffectWithGlitch.Tick` | components/typewriter-effects.tsx:51-86 | the glitch variant's tick makes the same text, index and mode transition, `TickStep`, as the plain one |
| `Typewriter.TypewriterEffectWithGlitch.PauseElapsed` | components/typewriter-effects.tsx:64 | one of the glitch variant's pending pause timeouts firing is `PauseStep` |
| `Page.Render` | app/page.tsx:29-45 | what the page renders; specified by `PlaceholderAndSelector`, `ContentByStringEquality`, `AtMostOneContentView` and `ThreeRendersOnlyToggle` |
| `Page.RestoredView` | app/page.tsx:15-20 | after the load effect the view is the stored `portfolioView` when that is a non-empty string, and otherwise stays what it was (null) |
| `Page.Home.constructor` | app/page.tsx:12-13 | no view is selected and the page is loading |
| `Page.Home.LoadEffect` | app/page.tsx:15-22 | restores the view as `RestoredView` says and always ends with loading false |
| `Page.Home.HandleViewSelect` | app/page.tsx:24-27 | sets the selected view to `v` and stores `v` under `portfolioView`, so the two agree |
| `Page.Home.HandleToggleClick` | app/page.tsx:44 | the toggle's callback is `handleViewSelect`, so a toggle selects the toggled view and persists it |
| `Page.PlaceholderAndSelector` | app/page.tsx:29-37 | while loading only the placeholder renders; without a (truthy) view only the selector renders and no content view |
| `Page.ContentByStringEquality` | app/page.tsx:39-45 | with a view, the toggle renders and each content view renders exactly when the view string equals its name |
| `Page.AtMostOneContentView` | app/page.tsx:40-42 | in every state at most one of terminal, parallax and shooting renders |
| `Page.ThreeRendersOnlyToggle` | app/page.tsx:40-45 | the selector's `"three"` renders no content view, only the toggle |
| `Page.SelectThenRestore` | app/page.tsx:17-26 | a selected non-empty view is restored after a reload; a selected `""` is stored but not restored |
| `ViewToggle.Toggle` | components/view-toggle.tsx:13 | the new view is always terminal or parallax, and it is parallax exactly when the current view is terminal |
| `ViewToggle.OnClick` | components/view-toggle.tsx:12-15 | a click calls `onToggle` exactly once, with the new view |
| `ViewToggle.IconFor` | components/view-toggle.tsx:24-28 | the button's icon; specified by `IconShowsDestination` |
| `ViewToggle.ToggleTargets` | components/view-toggle.tsx:13 | terminal goes to parallax; parallax, shooting and three go to terminal |
| `ViewToggle.ToggleTwice` | components/view-toggle.tsx:13 | toggling twice from terminal or parallax returns the original view |
| `ViewToggle.IconShowsDestination` | components/view-toggle.tsx:24-28 | the mountains icon shows exactly on the terminal view, that is exactly when a click leads to parallax |
| `ThemeToggle.NextTheme` | components/theme-toggle.tsx:29 | the new theme is light or dark, and it is light exactly when the current theme is dark |
| `ThemeToggle.IsDayTime` | components/theme-toggle.tsx:22 | hours in [6, 18); see `TimeOfDayBoundaries` |
| `ThemeToggle.TimeOfDayTheme` | components/theme-toggle.tsx:21-24 | light by day, dark otherwise; specified by `TimeOfDayBoundaries` |
| `ThemeToggle.MountCall` | components/theme-toggle.tsx:13-25 | the mount effect calls `setTheme` exactly when no truthy theme is saved, and then with the time-of-day theme |
| `ThemeToggle.RenderedIcon` | components/theme-toggle.tsx:34-44 | nothing renders before mounting; after it, the sun shows exactly on the dark theme |
| `ThemeToggle.ThemeToggle.constructor` | components/theme-toggle.tsx:9-10 | starts unmounted with the library's current theme |
| `ThemeToggle.ThemeToggle.MountEffect` | components/theme-toggle.tsx:13-25 | marks the component mounted and sets the theme only when nothing is saved; it returns no store, so it never writes `theme` |
| `ThemeToggle.ThemeToggle.ToggleTheme` | components/theme-toggle.tsx:28-32 | sets the next theme and stores exactly that theme under `theme` |
| `ThemeToggle.NextThemeCases` | components/theme-toggle.tsx:29 | dark goes to light; light, `"system"` and undefined go to dark |
| `ThemeToggle.ToggleTwice` | components/theme-toggle.tsx:29 | toggling twice from dark or light returns the original theme |
| `ThemeToggle.TimeOfDayBoundaries` | components/theme-toggle.tsx:21-24 | the time-of-day theme is light exactly on hours [6, 18); 6 and 17 give light, 5 and 18 give dark |
| `ThemeToggle.ToggledThemeSurvivesMount` | components/theme-toggle.tsx:17-31 | after a toggle the stored theme is the one just set, and a later mount at any hour does not call `setTheme` |
| `ContactForm.Update` | components/contact-form.tsx:18-24 | the field with the given id gets the value; the other three keep theirs |
| `ContactForm.Change` | components/contact-form.tsx:18-24 | `handleChange`; specified by `ChangeEffect` |
| `ContactForm.BeginSubmit` | components/contact-form.tsx:27-29 | the start of `handleSubmit`; specified by `SubmissionOutcomes` |
| `ContactForm.FinishSubmit` | components/contact-form.tsx:32-51 | the `try` or `catch` branch, then `finally`; specified by `SubmissionOutcomes` |
| `ContactForm.ButtonDisabled` | components/contact-form.tsx:141 | the button is disabled while sending; see `SubmitGate` and `Messages` |
| `ContactForm.ShowsSuccessMessage` | components/contact-form.tsx:58-66 | the success message's condition; see `Messages` |
| `ContactForm.ShowsErrorMessage` | components/contact-form.tsx:68-76 | the error message's condition; see `Messages` |
| `ContactForm.ValidEmail` | components/contact-form.tsx:99 | the `type="email"` validity rule; see `ValidEmailExample` and `InvalidEmailExamples` |
| `ContactForm.ValidEmailExample` | components/contact-form.tsx:99 | `me@example.com` is a valid address |
| `ContactForm.InvalidEmailExamples` | components/contact-form.tsx:99 | `me@`, `@example.com`, `me` and `me@-x` are not valid addresses |
| `ContactForm.CanSubmit` | components/contact-form.tsx:85-141 | the browser fires `submit` only with the button enabled, the four `required` fields non-empty and a valid e-mail; see `SubmitGate` |
| `ContactForm.Step` | components/contact-form.tsx:18-52 | a user or network event, with blocked submits and settling without a submission in flight doing nothing; see `SubmitGate` and `RunConsistent` |
| `ContactForm.SubmitGate` | components/contact-form.tsx:85-141 | a blocked submit changes nothing; an allowed one is `BeginSubmit`; a second submit while sending does nothing; the empty initial form cannot be submitted; nothing settles without a submission in flight |
| `ContactForm.SuccessNeedsAcceptedSubmit` | components/contact-form.tsx:26-52 | from a form neither sending nor successful, every run that reaches sending or success contains a submit that the browser let through, with the fields filled in and a valid e-mail |
| `ContactForm.ChangeEffect` | components/contact-form.tsx:18-24 | `handleChange` sets one field and changes neither the other fields nor the submission state |
| `ContactForm.SubmissionOutcomes` | components/contact-form.tsx:26-52 | the start sets `isSubmitting` and clears the status; success then gives status success, all four fields `""` and not submitting; failure gives status error with the fields kept and not submitting |
| `ContactForm.Messages` | components/contact-form.tsx:58-76 | the success and error messages never both show, and neither shows while the (disabled) button is sending |
| `ContactForm.RunConsistent` | components/contact-form.tsx:18-52 | every sequence of edits, submits and settlements keeps "sending implies no status" |
| `ContactForm.ContactForm.constructor` | components/contact-form.tsx:9-16 | empty fields, not submitting, no status |
| `ContactForm.ContactForm.HandleChange` | components/contact-form.tsx:18-24 | the state becomes `Change` of the old state, keeping the invariant |
| `ContactForm.ContactForm.StartSubmit` | components/contact-form.tsx:27-29 | the handler up to its `await` (which the browser runs only when `CanSubmit` holds): the state becomes `BeginSubmit` of the old state |
| `ContactForm.ContactForm.SettleSubmit` | components/contact-form.tsx:32-51 | the state becomes `FinishSubmit` of the old state: the `try` or `catch` branch, then `finally` |
| `Storage.GetItem` | app/page.tsx:17 | `localStorage.getItem(key)` is the stored value when the key is present and `null` otherwise |
| `Storage.SetItem` | app/page.tsx:26 | after `localStorage.setItem(key, value)` the key reads back `value`, every other key reads as before, and the keys are the old ones plus `key` |
| `Storage.Truthy` | app/page.tsx:18 | a `string | null` is truthy exactly when it is a non-empty string |

## Left out

- Rendering, styling and animation: the markup of every output, framer-motion, three.js scenes, the progress-bar width (a float percentage), target hover and hit flashes, the glitch flag of `TypewriterEffectWithGlitch` (random and presentation only), and the cursor blink.
- DOM plumbing with no state logic: auto-scroll, focus on click, hiding the body cursor, `console.log`, the resume download and `window.open`.
- The shooting game's 3-second loading screen, and `TargetSection`'s own `hit`/`hovered` flags: they drive animation only.
- Real timers. Each timeout firing is an explicit method call or event. The model does not fix the order in which they fire. A tick at full length while a pause is pending stands for the effect re-running before the pause fires, as a new `phrases` array from the caller causes; the pending pauses are counted, so each one still acts when it fires.
- `Terminal.Lower`: it lowers ASCII capitals and KELVIN SIGN only. Other Unicode case mappings are not modelled: `toLowerCase` maps `É` to `é`, and `İ` to `i` followed by U+0307. This does not change which inputs are recognised. The only other mapping that yields an ASCII letter is the one for `İ`, and it also yields U+0307, which no command contains. It does change the text of an unrecognised entry: its `command`, its prompt line and its not-found echo.
- `Terminal.TerminalView.constructor`: it yields the transcript as the welcome effect leaves it. The empty history before that effect runs is not modelled.
- Strings are sequences of Unicode scalar values, not of UTF-16 code units as in JavaScript.
- `Typewriter.TypewriterEffect.constructor`: it requires a non-empty phrase list. With no phrases the source reads `phrases[0]` as `undefined` and its tick throws. A change of the `phrases` prop while the effect runs is not modelled.
- `ShootingGame.ShootingGamePortfolio.HandleHit`: it accepts any id and does not keep the invariant, as in the source. Only `HandleTargetClick`, for the five scene ids, keeps it. Scores and mouse coordinates are unbounded integers, whereas the source uses JavaScript numbers, which are doubles.
- `ContactForm.ContactForm.SettleSubmit`: whether the submission fails is a parameter. In the source the `try` block cannot actually throw. Edits made while a submission is in flight are modelled: `HandleChange` is allowed in any state, and a later success still empties the fields.
- `ThemeToggle`: the current theme of the theme library is a field of the component. The library's own behaviour is not modelled, including its sharing of the theme between instances and its own writes to `localStorage`.
- Contact-form ids other than the four inputs' ids cannot occur, so `Field` has exactly four values.
- `ContactForm.ValidEmail`: the browser's value sanitisation is not modelled. An e-mail input drops line breaks and surrounding whitespace from its value, and the model takes the value as given.
- `ContactForm.ContactForm.StartSubmit` and `ContactForm.ContactForm.SettleSubmit`: like the handler, they check nothing. The browser's gate and "only a submission in flight settles" are in `ContactForm.Step`.

## Findings

| source | as written | input that shows it | evidently intended | confidence | as-written member | corrected member |
|---|---|---|---|---|---|---|
| components/typewriter-effects.tsx:17-18 | in both variants (also lines 62-64), every typing tick at full length starts a 1500 ms timeout that the effect's cleanup never clears, and each of them sets `isDeleting` when it fires | phrases `ab`, `cd`; the effect re-runs once while `ab` is fully typed (`ImmersiveParallax` re-renders on every mouse move, components/immersive-parallax.tsx:72, and passes a new `phrases` array each time, components/immersive-parallax.tsx:261-268), so two pauses are pending; the second fires after the switch to `cd` and `cd` is skipped | at most one pause pending, so deleting starts only once the whole phrase is typed | medium, not executed | `Typewriter.StalePauseSkipsPhrase` | `Typewriter.ClearedDeletesOnlyWholePhrases` |
