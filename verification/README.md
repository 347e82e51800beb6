# Word quiz and project editor: a Dafny model

This project models the logic of two small browser applications.

- **The word quiz.** The service module asks a text-generation API for word/definition pairs. It checks the shape of the parsed reply and turns every failure into one fixed message.
- **The quiz controller.** The `App` component has seven pieces of state. Its handlers move the game between the Initial, Loading, Playing and Finished screens, judge the answer with a trim-and-lowercase comparison, and keep the score.
- **The project editor dialog of the portfolio gallery.** It fills its form from the website being edited, or leaves it empty for a new one. It updates one field at a time. On save it turns the comma-separated tag text back into a list of tags and fills in the id.

## Layout

| file | module | models |
|---|---|---|
| `wrappers.dfy` | `Wrappers` | `Option` (for `null`/`undefined`) and `Result` (a value or a thrown error) |
| `text.dfy` | `Text` | `String.prototype.trim` (the exact ECMAScript whitespace set) and `toLowerCase` (ASCII letters) |
| `types.dfy` | `Types` | `QuizQuestion`, `GameState`, `FeedbackType`, `Feedback`, `Website` |
| `gemini_service.dfy` | `GeminiService` | `fetchQuizData`: the API-key check, the shape check and the catch-all rewrite |
| `quiz_app.dfy` | `QuizApp` | the quiz component: the state steps as functions on a `Session` value, the invariant, and class `App` |
| `edit_website_modal.dfy` | `EditWebsiteModal` | the tag split/trim/filter pipeline, its round trip with `join(', ')`, id defaulting, and class `EditWebsiteForm` |

**How the stateful components are modelled.** Each one is a class whose fields are the component's state hooks. It has one method per handler. The methods of `EditWebsiteForm` name in `modifies` the one field each handler changes. The methods of `QuizApp.App` say `modifies this`, and their `ensures` give the whole new state, so every field a handler leaves alone is stated unchanged.

- Each method of `QuizApp.App` is proved to perform one step function exactly: `State() == Submitted(old(State()))`, and so on. Each method also keeps the invariant `Inv`.
- The step functions carry in their contracts what the handler promises: frames, score changes, the lock on re-submitting, the move to Finished.
- Lemmas relate several steps: starting a game, a full game, the answer check on examples.

**The async `startGame`.** It is split at its one `await`. `BeginStart` is the part before it. `CompleteStart` is the part after it, and it takes what `fetchQuizData` returned or threw as a parameter.

**What the handlers do not check.** They do not look at the current screen. Which handler can run depends on what the screen renders. That condition is the method's precondition:

- Submitting and typing need the Playing screen with a current question: the screen reads the current question's definition before it renders the input (`App.tsx:60-77`).
- Next needs a judged answer (`App.tsx:80-87`).
- Start needs the Initial or Finished screen (`App.tsx:105`, `App.tsx:119`).

**Where the code differs from the design, the model follows the code:**
- An empty array passes the shape check, because `every` over no elements is true. Only the presence of the `word` and `definition` keys is checked; their values may be anything (`GeminiService.EmptyArrayAccepted`, `GeminiService.OnlyKeyPresenceChecked`). An empty list still switches the game to Playing (`App.tsx:22`, `App.tsx:26`). But the Playing screen then reads `.definition` of the missing first question (`App.tsx:61`, `App.tsx:70`) and throws while rendering. With no error boundary the page goes blank and no handler, not even start, can run again. The model keeps that state, Playing with no questions, and proves it a dead end: no handler's precondition holds there (`QuizApp.EmptyGameIsStuck`).
- A missing API key is thrown inside the `try` block. The caller therefore sees the same fixed message as for every other failure, not a separate configuration error (`GeminiService.MissingKeyFailsBeforeRequest`).
- Only the user's answer is trimmed. The stored word is lower-cased but not trimmed (`QuizApp.WordNotTrimmed`).

## Model

| member | source | states |
|---|---|---|
| `Text.Trim` | App.tsx:38 | `trim` yields a string with no whitespace at either end. It is empty exactly when the input is all whitespace. It is the stretch of the input that starts at its first non-whitespace character and has only whitespace after it |
| `Text.TrimStart` | App.tsx:38 | leading whitespace removed: a suffix of the input that is empty or starts with a non-whitespace character |
| `Text.TrimEnd` | App.tsx:38 | trailing whitespace removed: a prefix of the input followed only by whitespace, ending in a non-whitespace character |
| `Text.Lower` | App.tsx:38 | `toLowerCase` for ASCII only: the length is kept, 'A'..'Z' move to 'a'..'z', and every other character is unchanged |
| `Text.TrimKeepsCharacters` | components/EditWebsiteModal.tsx:48 | every character of a trimmed piece occurs in the piece (so a trimmed comma-free piece stays comma-free) |
| `Text.TrimTrimmed` | components/EditWebsiteModal.tsx:48 | a string without surrounding whitespace is its own trim |
| `Text.TrimSkipsLeadingSpace` | components/EditWebsiteModal.tsx:30 | whitespace in front of a string (the space of the `', '` separator) does not change its trim |
| `GeminiService.KeyConfigured` | services/geminiService.ts:7 | `process.env.API_KEY` is truthy exactly when it is present and not the empty string |
| `GeminiService.HasQuizKeys` | services/geminiService.ts:42 | `'word' in item && 'definition' in item` passes exactly for objects that have both keys. It throws exactly for primitives (`in` on a non-object) and is false for arrays and other objects |
| `GeminiService.Every` | services/geminiService.ts:42 | `every` passes if and only if every element is an object with both keys. If it throws, some element threw |
| `GeminiService.ShapeCheck` | services/geminiService.ts:42 | the reply is accepted if and only if it is an array whose every element has both keys |
| `GeminiService.TryBlock` | services/geminiService.ts:6-47 | without a truthy key it throws the configuration error before any request. It returns if and only if a key is set, the reply parsed and the shape check passed, and then it returns the parsed array unchanged |
| `GeminiService.FetchQuizData` | services/geminiService.ts:5-52 | every failure is the single fixed message of the catch block. Success happens if and only if a key is set and the parsed reply is an array of objects with both keys, and then the result is that array, same length and order |
| `GeminiService.MissingKeyFailsBeforeRequest` | services/geminiService.ts:7-9 | with no key (absent or empty) the result is the fixed failure, whatever the service would have replied |
| `GeminiService.InnerMessagesNeverEscape` | services/geminiService.ts:44-50 | neither the invalid-shape message nor the missing-key message ever reaches the caller |
| `GeminiService.EmptyArrayAccepted` | services/geminiService.ts:42 | an empty array is accepted and returned |
| `GeminiService.OnlyKeyPresenceChecked` | services/geminiService.ts:42-43 | an element with both keys is accepted whatever their values (non-strings included) and returned as it is |
| `GeminiService.BadShapesRejected` | services/geminiService.ts:42-46 | an element missing `definition`, or a reply that is an object rather than an array, ends in the fixed failure |
| `GeminiService.AsQuizQuestions` | services/geminiService.ts:43 | the `as QuizQuestion[]` reading of string-valued elements keeps length and order, element by element |
| `QuizApp.ErrorMessage` | App.tsx:28 | the message stored for a thrown value: an `Error`'s own message, or the fixed unknown-error text for anything else |
| `QuizApp.IsCorrect` | App.tsx:37-38 | the answer is correct exactly when the trimmed answer has the word's length and matches it character by character, ignoring ASCII case. The word itself is not trimmed |
| `QuizApp.Began` | App.tsx:16-19 | start enters Loading, clears the error and resets the feedback to None. Questions, index, score and answer are untouched |
| `QuizApp.Completed` | App.tsx:20-30 | on success: Playing, the fetched questions, index 0, score 0, empty answer. On a thrown value: Initial, with the error's message (or the fixed unknown-error text for a non-`Error`), and questions, index, score and answer kept. The feedback is untouched and the invariant is kept |
| `QuizApp.Typed` | App.tsx:60-77 | typing, possible only on the Playing screen with a current question and before judging, changes only the answer text |
| `QuizApp.Submitted` | App.tsx:33-44 | a submit after judging is a no-op. It never changes screen, questions, index, answer or error. The answer is judged Correct if and only if the trimmed, lower-cased answer equals the lower-cased current word. Correct adds exactly 1 to the score. Incorrect keeps the score, and its message ends with the correct word. The invariant is kept |
| `QuizApp.Advanced` | App.tsx:46-54 | before the last question: the index goes up by 1, the answer is cleared, feedback returns to None and the score is kept. Otherwise the state becomes Finished with everything else unchanged. Finished is reached if and only if the index was the last. The invariant is kept |
| `QuizApp.BoundsWhilePlaying` | App.tsx:60-65 | while Playing or Finished with questions fetched, `0 <= index < length` and `score <= index + 1 <= length` |
| `QuizApp.EmptyGameIsStuck` | App.tsx:22-26 | after an accepted empty reply (Playing, no questions) no handler can run: not start (the screen is neither Initial nor Finished), not next (nothing judged), not typing or submit (no current question) |
| `QuizApp.StartSucceeds` | App.tsx:16-26 | a successful start gives exactly: Playing, the fetched questions, index 0, score 0, empty answer, feedback None, no error |
| `QuizApp.StartFails` | App.tsx:16-30 | a failed start gives Initial with the thrown message. Only the feedback was reset; questions, index and score keep their earlier values |
| `QuizApp.StartWithService` | App.tsx:21-28 | starting against the service: every failure shows the service's fixed message and keeps the old questions. An accepted reply of string-valued items becomes the question list, same length and order |
| `QuizApp.SubmitTwiceIsSubmitOnce` | App.tsx:35 | submitting a second time before moving on changes nothing |
| `QuizApp.AllCorrectCount` | App.tsx:38-40 | the number of correct answers is at most the number of answers. It equals that number if and only if every answer is correct |
| `QuizApp.NoneCorrectCount` | App.tsx:38-40 | the number of correct answers is 0 if and only if no answer is correct |
| `QuizApp.PlayToEnd` | App.tsx:33-54 | from an unanswered question, answering every remaining question ends in Finished at the last index, with the questions kept and one point added per correct answer |
| `QuizApp.FullGame` | App.tsx:16-54 | a whole game from a successful start ends Finished with score equal to the number of correct answers: the question count if all are correct, 0 if none are |
| `QuizApp.PaddedAnswerAccepted` | App.tsx:38 | `" Apple "` is a correct answer for `"apple"` |
| `QuizApp.LongerAnswerRejected` | App.tsx:38 | `"apples"` is not a correct answer for `"apple"` |
| `QuizApp.WordNotTrimmed` | App.tsx:37-38 | no answer matches a stored word with a leading space, because only the answer is trimmed |
| `QuizApp.App.constructor` | App.tsx:8-14 | the initial state: Initial, no questions, index 0, empty answer, score 0, feedback None, no error |
| `QuizApp.App.BeginStart` | App.tsx:17-19 | performs `Began` on the fields and keeps the invariant |
| `QuizApp.App.CompleteStart` | App.tsx:21-30 | performs `Completed` with the fetch outcome and keeps the invariant |
| `QuizApp.App.SetUserAnswer` | App.tsx:75 | performs `Typed` and keeps the invariant |
| `QuizApp.App.HandleAnswerSubmit` | App.tsx:33-44 | performs `Submitted` and keeps the invariant |
| `QuizApp.App.HandleNextQuestion` | App.tsx:46-54 | performs `Advanced` and keeps the invariant |
| `EditWebsiteModal.Split` | components/EditWebsiteModal.tsx:48 | `split(',')` yields at least one piece, and no piece contains a comma |
| `EditWebsiteModal.Join` | components/EditWebsiteModal.tsx:30 | `join(sep)`: the parts in order with the separator between neighbours; no parts give the empty string |
| `EditWebsiteModal.JoinEnds` | components/EditWebsiteModal.tsx:30 | the joined text starts with the first part and ends with the last |
| `EditWebsiteModal.JoinSplit` | components/EditWebsiteModal.tsx:48 | re-joining the pieces with commas gives back the split text |
| `EditWebsiteModal.SplitJoin` | components/EditWebsiteModal.tsx:48 | splitting the comma-join of comma-free parts gives back the parts |
| `EditWebsiteModal.TrimEach` | components/EditWebsiteModal.tsx:48 | `map(trim)` keeps the count and trims each piece in place |
| `EditWebsiteModal.DropEmpty` | components/EditWebsiteModal.tsx:48 | `filter(tag => tag)` keeps only non-empty pieces, all from the input. It keeps everything when nothing is empty |
| `EditWebsiteModal.DropEmptySingle` | components/EditWebsiteModal.tsx:48 | one piece survives the filter exactly when it is non-empty |
| `EditWebsiteModal.DropEmptyAppend` | components/EditWebsiteModal.tsx:48 | the filter keeps order: filtering a concatenation is filtering each part and concatenating the results (with `DropEmptySingle` this fixes the result for every input) |
| `EditWebsiteModal.DropEmptyCounts` | components/EditWebsiteModal.tsx:48 | every non-empty piece survives, exactly as many times as it occurs |
| `EditWebsiteModal.ParseTags` | components/EditWebsiteModal.tsx:48 | every parsed tag is non-empty, has no comma and has no surrounding whitespace |
| `EditWebsiteModal.SplitConsComma` | components/EditWebsiteModal.tsx:48 | for `split(',')`, a leading comma starts a new, empty piece |
| `EditWebsiteModal.SplitConsOther` | components/EditWebsiteModal.tsx:48 | for `split(',')`, any other leading character joins the first piece |
| `EditWebsiteModal.SplitAtComma` | components/EditWebsiteModal.tsx:48 | splitting text at a comma gives the pieces before it, then the pieces after it |
| `EditWebsiteModal.TrimEachAppend` | components/EditWebsiteModal.tsx:48 | `map(trim)` of a concatenation is the concatenation of the two `map(trim)` results |
| `EditWebsiteModal.ParseTagsAtComma` | components/EditWebsiteModal.tsx:48 | the tags of text with a comma in it are the tags before the comma, then the tags after it, in order |
| `EditWebsiteModal.ParseTagsPiece` | components/EditWebsiteModal.tsx:48 | comma-free text gives its trim as the single tag, or no tag when it is blank (with `ParseTagsAtComma` this fixes the tags of every input: the trimmed comma-separated pieces, empty ones removed, in input order) |
| `EditWebsiteModal.TagsText` | components/EditWebsiteModal.tsx:30 | the tag text shown for a tag list, `tags.join(', ')`: empty for no tags, otherwise starting with the first tag |
| `EditWebsiteModal.SplitTagsText` | components/EditWebsiteModal.tsx:30 | splitting `tags.join(', ')` at commas gives the first tag, then each later tag with one leading space |
| `EditWebsiteModal.JoinCommaSpace` | components/EditWebsiteModal.tsx:30 | `tags.join(', ')` is the comma-join of the tags with a space in front of each later one |
| `EditWebsiteModal.TrimTagsTextPieces` | components/EditWebsiteModal.tsx:48 | trimming the pieces of `tags.join(', ')` gives back the tags |
| `EditWebsiteModal.ParseTagsText` | components/EditWebsiteModal.tsx:48 | round trip: tags that are non-empty, comma-free and without surrounding whitespace parse back from `tags.join(', ')` unchanged |
| `EditWebsiteModal.ParseTagsIdempotent` | components/EditWebsiteModal.tsx:48 | re-parsing the displayed text of parsed tags gives the same tags |
| `EditWebsiteModal.SeededDraft` | components/EditWebsiteModal.tsx:21-35 | seeding copies the website's title, description, image URL, URL and tags. Seeding from null gives the empty form |
| `EditWebsiteModal.SeededTagsText` | components/EditWebsiteModal.tsx:30-33 | the tag text the effect sets: empty for null. For a website whose tags are well formed, the text parses back to exactly those tags |
| `EditWebsiteModal.WithField` | components/EditWebsiteModal.tsx:37-40 | the named field takes the new value and every other field is unchanged |
| `EditWebsiteModal.SavedId` | components/EditWebsiteModal.tsx:52 | `website?.id \|\| 0` is the edited website's id, or 0 when adding |
| `EditWebsiteModal.SavedWebsite` | components/EditWebsiteModal.tsx:46-54 | the saved title, description, image URL and URL are the form's fields. The tags are the parsed tag text and the id is the defaulted id |
| `EditWebsiteModal.SaveUnchangedEdit` | components/EditWebsiteModal.tsx:21-54 | opening a website with well-formed tags and saving it untouched gives back the same website |
| `EditWebsiteModal.EditWebsiteForm.constructor` | components/EditWebsiteModal.tsx:11-35 | on mount the form holds the seeded fields and tag text for the initial website prop |
| `EditWebsiteModal.EditWebsiteForm.Seed` | components/EditWebsiteModal.tsx:21-35 | a new website prop reseeds the form fields and sets the tag text to the tags joined by `', '`, or clears both for null |
| `EditWebsiteModal.EditWebsiteForm.HandleChange` | components/EditWebsiteModal.tsx:37-40 | updates only the named field of the form, leaving the tag text alone |
| `EditWebsiteModal.EditWebsiteForm.HandleTagsChange` | components/EditWebsiteModal.tsx:42-44 | replaces the tag text and nothing else |
| `EditWebsiteModal.EditWebsiteForm.HandleSubmit` | components/EditWebsiteModal.tsx:46-54 | returns the website handed to `onSave`, as `SavedWebsite` of the current form, and leaves the form unchanged |

## Left out

- Rendering, markup and styling, the loading spinner, and the other gallery components (card, delete confirmation, navigation bar). Only the render conditions that decide which handler can run are kept, as preconditions.
- The SDK call, its prompt and response schema, and `JSON.parse`: foreign code and network I/O. Their outcome is the `Reply` parameter (transport failure, parse failure, or a parsed value). JSON numbers are kept as integers.
- `console.error` logging; React's state batching, `useCallback`, effect scheduling and `async`/`await`. Each handler is one atomic step, and `startGame` is two.
- `GeminiService.AsQuizQuestions` covers only elements whose `word` and `definition` are strings. The shape check also accepts other values, and the controller model does not follow them. In the source they have these effects:
  - A non-string `word` makes `correctAnswer.toLowerCase()` throw on every submit (`App.tsx:38`). The throw comes before any feedback is set, so the game stalls on that question.
  - A non-string `definition` never reaches `toLowerCase`. An object there crashes the render at `App.tsx:70` and the page goes blank. A number or an array is simply displayed.
- `Text.Lower` covers ASCII letters only; full Unicode case mapping is not modelled. The whitespace set of `Text.IsSpace` is ECMAScript's, fixed at today's Unicode space separators.
- The gallery's add/update/remove/filter store, its tag list, and the seed data in `constants.ts`. Only the editor dialog is modelled. The `Website` record's fields are taken from their uses in `constants.ts` and the editor, because the gallery's `Website` type declaration is not part of this model.
- The dialog's `onClose` and the markup's `required` attributes. The dialog first renders with empty fields and then seeds them; the constructor models the state after that first seeding.
