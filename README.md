# Voice Survey screen — a Dafny model

The Voice Survey app shows one question of a fixed two-item survey at a time,
in English, Hindi or Khmer. It can read the question and its answer options
aloud through a speech engine, and on the native app it can record an audio
answer. All of its logic sits in one React component, `App` in `src/App.tsx`.
The component keeps two pieces of state: the question `index` and the selected
`language`.

This project models that component in three modules:

- `SurveyData` (`survey.dfy`): the three languages as a datatype, the
  `<select>` value of each, a survey item (a question per language and an
  ordered list of options), and the survey constant.
- `Speech` (`speech.dfy`): `Join` (the behaviour of JavaScript's
  `Array.prototype.join` on strings), the spoken text of an item, and
  `GetLangCode`, which maps a language code to a speech locale tag.
- `Controller` (`controller.dfy`): the screen as a pure state machine. `Step`
  handles one event (Previous, Next, a language choice) and `Run` handles a
  sequence of them. The class `App` holds `index` and `language` as fields.
  Its methods `Previous`, `Next` and `SetLanguage` are proved against `Step`,
  and `Speak` against the speech functions. `RecordAudio` states its own
  platform branch and that it leaves the state unchanged.

A disabled button is modelled as a click that does nothing. The guards are the
source's own comparisons: `index == 0` for Previous and
`index == |survey| - 1` for Next, on plain integers. That the index stays in
`[0, |survey|)` is proved, not assumed.

Three things the code does not do:

- The code never rejects a language. The `<select>` can only produce `en`, `hi`
  or `km`, and the value goes straight into state. So `SetLanguage` takes a
  `Language`, and there is no invalid-language error.
- Navigation is bounded by disabled buttons, not by a clamp inside the update.
  Moving past either end is impossible only because those buttons are
  disabled. `RunInRange` proves that this is enough.
- Off the native app, recording shows a notice (`alert`). No error is raised,
  and nothing guards against two recordings at once.

## Model

| member | source | states |
|---|---|---|
| `SurveyData.Code` | src/App.tsx:78-80 | each language's `<select>` value is a two-letter code |
| `SurveyData.CodeInjective` | src/App.tsx:73-81 | two languages share a `<select>` value only if they are the same language |
| `SurveyData.Survey` | src/App.tsx:8-25 | the survey has exactly two items |
| `SurveyData.SurveyComplete` | src/App.tsx:8-25 | every survey item has a question for every language, so `survey[index].question[language]` is always defined |
| `Speech.Join` | src/App.tsx:37 | joining no strings gives the empty string; otherwise the first string opens the result |
| `Speech.JoinLength` | src/App.tsx:37 | the joined options are as long as the options plus one separator between each pair of neighbours |
| `Speech.JoinAt` | src/App.tsx:37 | option `k` appears in the joined string at the offset after the earlier options and their separators; a separator follows every option except the last |
| `Speech.JoinEnd` | src/App.tsx:37 | the last string ends the joined string, so its end offset equals the length given by `JoinLength` |
| `Speech.OptionsSuffix` | src/App.tsx:36-38 | the suffix is empty exactly when there are no options, and otherwise starts with `". Options are: "` |
| `Speech.SpokenText` | src/App.tsx:33-38 | the spoken text starts with the current question in the current language |
| `Speech.SpokenTextIsQuestionIff` | src/App.tsx:34-38 | the spoken text equals the question exactly if and only if the options list is empty |
| `Speech.SpokenTextWithOptions` | src/App.tsx:34-38 | with options, the question is followed by `". Options are: "` and then by the options joined with `", "`, and nothing more |
| `Speech.SpokenTextReadsOption` | src/App.tsx:36-37 | every option is read, in list order, at a position determined by the options before it |
| `Speech.HindiFirstItem` | src/App.tsx:8-38 | item 0 in Hindi reads `"आपका पसंदीदा फल क्या है?. Options are: Apple, Banana, Orange"` |
| `Speech.GetLangCode` | src/App.tsx:42-51 | the tag is `hi-IN` exactly for `"hi"`, `km-KH` exactly for `"km"`, and `en-US` for every other string |
| `Speech.LangCodeRoundTrip` | src/App.tsx:42-51 | the tag of each language names that language back, so no two languages are spoken with the same locale |
| `Controller.InitialState` | src/App.tsx:28-29 | the screen starts at index 0 in English, a position of any non-empty survey, with Previous disabled |
| `Controller.PreviousDisabled` | src/App.tsx:113 | Previous is disabled exactly when the index is 0 |
| `Controller.NextDisabled` | src/App.tsx:120 | Next is disabled exactly when the index is the survey length minus 1 |
| `Controller.Step` | src/App.tsx:73-125 | one event moves the index by at most one; a language choice keeps the index and sets the chosen language; Previous and Next keep the language |
| `Controller.Run` | src/App.tsx:73-125 | a sequence of events is handled one event at a time, in order |
| `Controller.RunAppend` | src/App.tsx:73-125 | handling one more event after a sequence is one more `Step` on the result of the sequence |
| `Controller.StepInRange` | src/App.tsx:112-125 | one event keeps the index inside the survey, navigation moves it by at most one, and a language choice leaves it alone |
| `Controller.RunInRange` | src/App.tsx:112-125 | after any sequence of clicks and language choices, `0 <= index < survey.length` |
| `Controller.StepFrames` | src/App.tsx:73-125 | Previous and Next leave the language unchanged; a language choice leaves the index unchanged and sets the chosen language |
| `Controller.NavigationKeepsLanguage` | src/App.tsx:112-125 | any sequence of Previous and Next clicks leaves the language unchanged |
| `Controller.SelectionsKeepIndex` | src/App.tsx:73-81 | any sequence of language choices leaves the index unchanged, and the last choice is the one in effect |
| `Controller.NavigationInverse` | src/App.tsx:112-125 | Previous undoes an enabled Next, and Next undoes an enabled Previous |
| `Controller.NextsReach` | src/App.tsx:119-125 | from any question, `k` Next clicks reach the question `k` further on while it exists, and the language is kept |
| `Controller.Scenario` | src/App.tsx:112-125 | from `(0, en)`: Previous is disabled and does nothing; Next gives `(1, en)`; at index 1 Next is disabled and does nothing |
| `Controller.App.constructor` | src/App.tsx:28-29 | the screen starts at `(0, en)`, which is within the survey |
| `Controller.App.Previous` | src/App.tsx:112-118 | Previous moves back one question unless it is disabled at index 0; it keeps the index inside the survey and keeps the language |
| `Controller.App.Next` | src/App.tsx:119-125 | Next moves on one question unless it is disabled at the last index; it keeps the index inside the survey and keeps the language |
| `Controller.App.SetLanguage` | src/App.tsx:73-81 | choosing a language replaces `language` and leaves `index` unchanged |
| `Controller.App.Speak` | src/App.tsx:32-40 | the speech request carries the spoken text of the current item in the current language, and `GetLangCode` of the language's code; the state is only read |
| `Controller.App.RecordAudio` | src/App.tsx:53-65 | the native app attempts to capture a clip and log it; any other platform shows the notice "Voice recording works only in native app."; neither branch changes `index` or `language` |

## Left out

- Rendering (`src/App.tsx:67-129`): the JSX markup, CSS classes and the list of options on screen. This is view code.
- The speech engine behind `useSpeechSynthesis`, with its `speak` and `cancel` (`src/App.tsx:6, 30, 39`). It is a foreign library. The model stops at the request `(text, lang)` handed to `speak`.
- What happens inside the native branch of `recordAudio` (`src/App.tsx:55-61`): `Media.recordAudio`, `Filesystem.readFile`, the base64 payload and `console.log`. These are asynchronous native I/O. The model records only that this branch attempts a capture and a log, and that it does not touch the state.
- The failure path of the native branch: `Media.recordAudio` or `Filesystem.readFile` can reject, and with no `try`/`catch` the promise then rejects and nothing is logged (`src/App.tsx:55-60`). The model's `CaptureAndLog` does not distinguish success from this failure. The state is untouched either way.
- `Capacitor.isNativePlatform()` (`src/App.tsx:54`): it becomes the boolean parameter `isNative` of `RecordAudio`.
- The `alert` call (`src/App.tsx:63`): it becomes the returned `Alert` action with the same message.
- Concurrency: the asynchronous recording flow and React's batching of state updates. The model treats each button press as one atomic step.
- `Controller.App.RecordAudio`: it states that the state is unchanged with `unchanged(this)`. It says nothing about the recorded clip's contents, which come from native code.
