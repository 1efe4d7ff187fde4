# ai-lingua: the translation-direction state machine

The service takes a spoken clip, transcribes it, detects its language and then
translates it. Spanish is one side of every translation. The other side is a
*reference language*: the most recent non-Spanish language the process has
seen. It lives in a single process-wide slot, `reference_language`, which
starts unset and is shared by every request.

This project models the decision logic of the `/transcribe-translate` handler
and proves properties of it:

- `strings.dfy`, module `Strings`: Python's `str.strip()` with no argument,
  which the handler applies to the transcript and to the translation reply.
  Whitespace is the set of characters for which Python's `str.isspace()` holds.
- `direction.dfy`, module `Direction`: the pure resolver. One detected
  language code updates the reference slot, then selects the target language
  and the direction label (`"ES → r"` or `"c → ES"`). It also has lemmas about
  sequences of requests, oldest first.
- `handler.dfy`, module `Handler`: the handler as a whole. It covers the
  empty-transcript guard, the prompt template and the result record, both as
  a pure function `Handle` and as the class `Session`. `Session` holds the
  global slot as a mutable field. Its methods `Resolve` and
  `TranscribeTranslate` are proved against `Step` and `Handle`.

The external collaborators become inputs, each of which can fail:

- the transcript is the speech-to-text result, `None` when storing the upload
  or the transcription call raises;
- the language detector and the translation service are functions
  `string -> Option<string>` passed in as parameters, `None` where the call
  raises (for the translation, also where the reply has no content);
- `speak` says whether speech synthesis of the translated text, and removing
  the upload afterwards, succeed;
- the name of the synthesized audio file is a string argument.

An exception the handler does not catch becomes a `Failed(stage)` reply. A
failure after detection (translation or synthesis) comes after main.py:65 has
already overwritten the slot, and the model keeps that update.

Three points of the code's behaviour that the model keeps as written:

- The test at main.py:67 is Python truthiness. An empty string in the slot
  therefore counts as unset, the same as `None` (`Direction.HasReference`).
- The error text is the code's `"No se ha detectado voz"`.
- The degenerate case is kept as written. If Spanish is detected while no
  reference is set, the target is `"es"` and the label is `"es → ES"`.

## Model

| member | source | states |
|---|---|---|
| `Strings.StripBounds` | main.py:58 | `strip()` keeps the unique slice with only whitespace outside it that is empty or starts and ends with a non-whitespace character; the slice is empty exactly when the whole string is whitespace |
| `Strings.Strip` | main.py:58-59 | the stripped text is empty iff the input is empty or all whitespace; a non-empty result has no leading or trailing whitespace |
| `Strings.StripBoundsUnique` | main.py:58 | any slice with only whitespace outside it and non-whitespace at both ends (or empty, when the string is blank) is exactly what `strip()` returns |
| `Strings.StripIdempotent` | main.py:58 | stripping an already stripped transcript changes nothing |
| `Strings.StripRemovesPadding` | main.py:58 | `strip()` removes exactly the whitespace padding around a text that has none of its own |
| `Direction.UpdateReference` | main.py:64-65 | a code other than "es" overwrites the slot whatever it held; "es" leaves it unchanged |
| `Direction.Step` | main.py:64-72 | a non-"es" code `c` is stored and gives target "es" and label `c + " → ES"`; "es" with a (truthy) reference `r` gives target `r` and label `"ES → " + r`; "es" with no reference gives target "es" and label "es → ES"; "es" never changes the slot |
| `Direction.SpanishStepIsStable` | main.py:64-69 | a second "es" detection after an "es" detection returns the same target, label and state |
| `Direction.OtherForgetsHistory` | main.py:64-72 | after a non-"es" detection the state and the result are the same whatever the slot held before |
| `Direction.OutputAt` | main.py:64-72 | the i-th request of a sequence is resolved against the slot as the earlier requests left it |
| `Direction.SpanishKeepsReference` | main.py:64-65 | any run of "es" detections leaves the slot exactly as it was |
| `Direction.SpanishRepeats` | main.py:64-69 | repeating "es" any number of times returns the same target and label every time and leaves the slot unchanged |
| `Direction.ReferenceIsLastOther` | main.py:64-65 | after a sequence, the slot holds the last non-"es" code detected in it |
| `Direction.SpanishFollowsLastOther` | main.py:64-69 | an "es" request is translated into the latest earlier non-"es" code, when that code is non-empty, with label `"ES → " + code`, however many "es" requests came in between |
| `Direction.ReferenceNeverSpanish` | main.py:64-65 | "es" is never written into the slot, over any sequence of requests |
| `Handler.Prompt` | main.py:75-82 | the prompt starts with the fixed instruction, quotes the target language right after it, and ends with `"Texto:\n" + text` |
| `Handler.Handle` | main.py:48-110 | a failed transcription, a blank transcript (the error object) and a failed detection send no prompt and leave the slot exactly as it was; otherwise the slot becomes `Step`'s and `Prompt(target, text)` is sent, even if translation or synthesis then fails; on success the record reports the detected code, the slot after the update, the label, the stripped text, the stripped reply and the audio name |
| `Handler.HandleKeepsReferenceNotSpanish` | main.py:58-72 | a whole request, failed or not, never leaves "es" in a slot that did not hold it |
| `Handler.FailedRequestSteersNext` | main.py:64-89 | a request that detects a non-empty code other than "es" and then fails still stores that code, so the next Spanish request is translated into it, labelled `"ES → " + code` |
| `Handler.Session.constructor` | main.py:30 | the slot starts unset |
| `Handler.Session.Resolve` | main.py:44-72 | the read-modify-write of the global slot: the new slot, the target and the label are those of `Step` on the old slot; a slot that did not hold "es" still does not |
| `Handler.Session.TranscribeTranslate` | main.py:43-110 | the handler run against the global slot: the new slot, the reply (including the failure stage) and the prompt sent are exactly those of `Handle` on the old slot; a slot that did not hold "es" still does not |

## Left out

- Speech-to-text (main.py:52-56): an external network call. Only its
  outcome is modelled, as the `transcript` argument.
- Language detection (main.py:62): a foreign library call. Only its outcome
  is modelled, as the `detect` parameter.
- Chat translation (main.py:84-89): an external network call. Only its
  outcome is modelled, as the `translate` parameter applied to the prompt.
- Speech synthesis (main.py:91-99): an external network call that writes a
  file. Only whether it succeeds is modelled, as `speak`. The uuid-based file
  name is the `audioName` argument.
- Temporary upload file handling (main.py:46-49, 101): file I/O and
  randomness. Only failure is modelled: a failed write or read counts as a
  failed transcription, and a failed removal as a failed synthesis.
- Which exception is raised, and the text of the server error: a failure is
  modelled only as the `Stage` it happens at.
- The FastAPI app and CORS middleware (main.py:18-25), the static mount
  (main.py:28), the `/` route (main.py:35-37) and `/audio/{audio_file}`
  serving (main.py:115-117): HTTP plumbing. JSON serialization of the reply is
  left out too.
- Concurrency on the global slot. Requests overlap only while the upload is
  stored (main.py:48-49). From main.py:50 on, the handler never yields to the
  event loop: the OpenAI client of main.py:16 is synchronous, and so are the
  detector and the file calls. Each request's read-modify-write of the slot is
  therefore atomic, and requests reach it in some order, not necessarily the
  order they arrived in. The model covers one such order.
- static/app.js is not part of this model. It is browser UI with no
  decision logic.
