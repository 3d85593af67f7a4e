# GitReal: a verified model of its session logic

GitReal checks a résumé against the code it claims. The user uploads a PDF
résumé. The backend finds the candidate's GitHub repository, fetches its code
and has a language model roast the résumé against that code. The frontend
then offers three things: a dashboard of the roast, a chat terminal that
rewrites the résumé, and a voice interview.

This project models, in Dafny, the logic that decides what happens in that
flow. Every model call, HTTP request, device access and storage read is an
input to the model rather than something it performs.

- `common.dfy` (`Common`): shared values — `Option`, `Reply` (a value or the
  message of a failure), message roles, projects, uploaded documents, Python's
  `s[:n]` (`Take`) and truthiness of optional strings.
- `github_url.dfy` (`GithubUrl`): `extract_github_details` with its `replace`,
  `split` and `index` calls written out. Also the `owner/repo/branch` cache
  key. Lemmas cover the split/join round trip, how the scheme and host are
  ignored, which segments are owner, repo and branch, and whether the key is
  injective.
- `brain.py` helpers, in `brain.dfy` (`Brain`):
  - the regex fallback of project extraction, as a loop;
  - the short-code guard of bullet generation;
  - the character stripping applied before speech, proved equal to a
    reference filter;
  - the RIFF/Ogg pass-through of speech generation;
  - the two voice-session globals, as a class.
- `server.dfy` (`Server`): the request handlers of `main.py`.
  - `class Backend` holds the module-level `REPO_CACHE` and `DB`. Its methods
    model `/analyze`, `/add_repo` and `/chat`, with the invariant that every
    cached text has at least 100 characters.
  - Also here: the bulleted chat message and the history role mapping, as a
    loop.
- `navigation.dfy` (`Navigation`): the page's view state machine.
  - `class App`: view, file, project, mode.
  - Project selection with its continue guard.
  - The dashboard's fetch fallback.
- `conversation.dfy` (`Conversation`): the chat terminal.
  - The message log, its reset and seeding effects, and the init, send,
    add-repo and compile handlers.
  - JavaScript's `trim` over the ECMAScript white-space set.
  - The history filter.
- `voice.dfy` (`Voice`): the voice turn controller. Its four flags obey a
  half-duplex invariant.

Some behaviours of the code are probably not what its authors meant. The
model follows the code in each case:

- **A failed text-to-speech request keeps the call stuck.** In the voice
  interview, `processAudio`'s failure path turns processing off but not
  speaking. After a failed speech request the microphone stays disabled
  until the call ends (`Voice.VoiceInterview.ProcessAudio`). The same holds
  in `startCall`, which also ends the call.
- **Processing and speaking overlap.** While a reply is spoken, both
  `isProcessing` and `isSpeaking` are true. The invariant the model proves is
  therefore only that listening excludes both.
- **Disconnecting keeps the session.** Going back to the landing view changes
  only the view. The file, the project and the mode stay
  (`Navigation.App.SetView`).
- **The interview view is unreachable.** No navigation call names the
  `'interview'` view. `Navigation.App.Routed` is preserved by every transition
  out of the pill choice and the child views, so the storage listener's
  interview seeding never runs through the app. The load effect seeds the
  interview log from a stored question in any mode, including chat.
- **An owner named `tree` is read as the branch marker.**
  `https://github.com/tree/x` yields owner `tree`, repo `x` and branch `x`
  (`GithubUrl.OwnerNamedTree`).
- **A branch named `None` shares its cache entry with no branch**
  (`GithubUrl.CacheKeyNoneBranch`).
- **An analysis reply without data leaves the dashboard loading.** When the
  answer carries no `data` field, as `/analyze` does on an internal error,
  the dashboard's loader stays up (`Navigation.RoastDashboard.FetchData`).

## Model

| member | source | states |
|---|---|---|
| GithubUrl.ExtractGithubDetails | backend/main.py:55-82 | No details exactly when the URL is missing or empty, or when no '/' is left after cleaning (fewer than two segments); owner and repo never hold a '/' |
| GithubUrl.IndexOf | backend/main.py:75-76 | `list.index`: absent exactly when the item is not in the list; otherwise the first position holding it |
| GithubUrl.Split | backend/main.py:64 | `str.split('/')` yields at least one segment and no segment holds the separator |
| GithubUrl.SplitJoin | backend/main.py:64 | Joining the segments with the separator gives back the cleaned text |
| GithubUrl.SplitCount | backend/main.py:64-67 | A single segment exactly when the separator is absent, so the "fewer than two segments" exit is "no '/'" |
| GithubUrl.SplitAfterSep | backend/main.py:64 | Splitting `a/b` with `a` slash-free gives `a` followed by the segments of `b` |
| GithubUrl.SplitConcat | backend/main.py:64 | Splitting `a/b` gives the segments of `a` followed by the segments of `b`, whatever `a` holds |
| GithubUrl.CleanIgnoresPrefix | backend/main.py:63 | A leading "https://", "http://" or "github.com/" makes no difference to the cleaned text |
| GithubUrl.SchemeAndHostIgnored | backend/main.py:63-64 | "https://github.com/x", "http://github.com/x", "github.com/x" and "x" parse identically |
| GithubUrl.ExtractOwnerRepo | backend/main.py:64-70 | Owner and repo are the first two segments: the cleaned text is `owner/repo`, alone or followed by '/' |
| GithubUrl.ExtractBranch | backend/main.py:71-80 | A branch exists exactly when a "tree" segment is not last, and it is the segment after the first "tree" |
| GithubUrl.RegexUrlRoundTrip | backend/main.py:207-209 | A URL built from a regex match (names from `[a-zA-Z0-9-_]`, owner not "tree") parses back to that owner and repo with no branch |
| GithubUrl.OwnerNamedTree | backend/main.py:73-78 | An owner literally named "tree" is taken for the tree marker, so its repo name is also reported as the branch |
| GithubUrl.CacheKeyInjective | backend/main.py:218 | For slash-free owner, repo and branch text, equal cache keys mean equal owner, repo and branch text |
| GithubUrl.CacheKeyNoneBranch | backend/main.py:218 | No branch and a branch named "None" give the same cache key |
| Brain.FallbackProjects | backend/brain.py:79-88 | One project per match, in match order, named after the repo, described as "GitHub repository: owner/repo", with URL "https://github.com/owner/repo" and no technologies; with no match, exactly the placeholder |
| Brain.FallbackUrlParsesBack | backend/brain.py:85 | The URL of a fallback project parses back to the match's owner and repo, and that repo is the project's name |
| Brain.StarBullets | backend/brain.py:134-171 | Under 50 characters of code (empty included) gives the fixed warning; otherwise the model's text or "Error generating bullets: " and the error |
| Brain.GuardIgnoresModel | backend/brain.py:139-140 | Under the guard the answer does not depend on the model at all |
| Brain.RemoveChar | backend/brain.py:414 | `str.replace(c, '')` leaves no `c` and never lengthens the text |
| Brain.KeepSpeakable | backend/brain.py:414 | The reference filter outputs only speakable characters and leaves fully speakable text unchanged |
| Brain.KeepSpeakableConcat | backend/brain.py:414 | The reference filter works piece by piece, so it keeps the order of what it keeps |
| Brain.CleanForSpeechIsFilter | backend/brain.py:414 | The three chained replacements equal the reference filter: no '*', '#' or '`' is left and every other character is kept in order |
| Brain.SpeechAudio | backend/brain.py:327-329 | Audio starting with RIFF or OggS is returned unchanged; anything else is replaced by its WAV wrapping; the result always starts with a container tag |
| Brain.VoiceBrain.constructor | backend/brain.py:29-30 | Both voice globals start empty |
| Brain.VoiceBrain.InitVoiceChat | backend/brain.py:359-398 | The context keeps the resume cut to 2000 and the code cut to 10000 characters; the session is replaced only when the model starts, which the result reports |
| Brain.VoiceBrain.ProcessVoiceText | backend/brain.py:401-418 | No session gives the fixed "Session not initialized" text; a model answer comes back with '*', '#' and '`' filtered out; a model failure gives the retry line |
| Server.BulletsLines | backend/main.py:242-244 | Reading the joined bullets back line by line gives one "- item" line per item, in order; an empty list gives one empty line |
| Server.ChatMessage | backend/main.py:240-255 | A decoded analysis gives a message starting with the critique header; an undecodable one gives the fixed fallback |
| Server.SectionLines | backend/main.py:246-247 | A header followed by its bullets reads back as the header line, then one "- item" line per item |
| Server.SplitBlankLine | backend/main.py:246-253 | A blank line between two texts reads back as the lines of the first, one empty line, then the lines of the second |
| Server.ChatMessageLines | backend/main.py:242-253 | Read line by line, the message is exactly: the critique header and its bullet lines, an empty line, the claims header and its lines, an empty line, the additions header and its lines |
| Server.TargetUrl | backend/main.py:203-212 | A provided URL other than empty or "null" is used; otherwise the first resume match, as an https URL, if any; the target is never empty |
| Server.KeyOf | backend/main.py:216-218 | A cache key exists exactly when the URL parses with non-empty owner and repo |
| Server.CacheHitIgnoresFetch | backend/main.py:219-221 | On a cache hit the code context is the cached text and does not depend on what the fetcher would return |
| Server.SameKeyWithoutScheme | backend/main.py:216-218 | A URL with or without "https://" reaches the same cache entry |
| Server.MapHistory | backend/main.py:333-336 | Same length and order; each turn carries the entry's text; role "user" exactly for type 'user', "model" for every other type |
| Server.Backend.constructor | backend/main.py:45-46 | Empty cache and no current user |
| Server.Backend.AnalyzePortfolio | backend/main.py:203-267 | Code context from the cache, the fetcher or the two fixed texts; a fetched text over 100 characters is cached; the user record stores the code cut to 50000; the cache invariant is kept |
| Server.Backend.AddRepoContext | backend/main.py:276-307 | An invalid URL changes nothing; fetched text of at least 100 characters is cached; under 100 is denied with no record change; otherwise the bullets, and the current user's code gains the marked 20000-character excerpt only if a user exists |
| Server.Backend.ChatEndpoint | backend/main.py:320-340 | Without a current user the fixed error and no model call; otherwise the mapped history is sent, one turn per entry in order, with role "user" for a 'user' entry and "model" for any other and the entry's text as the only part, and the model's answer or "The Matrix is glitching... " and the error comes back |
| Server.AddRepoPastGuard | backend/main.py:296-299 | Code that passed the 100-character check never triggers the bullet guard, so the model's answer is returned |
| Navigation.TargetView | frontend/app/page.tsx:616 | Roast leads to the dashboard and rewrite to the chat, both views that show a project |
| Navigation.ManualProject | frontend/app/page.tsx:621-626 | The manual entry is named "Manual Entry", described as "User provided GitHub URL", and carries the typed URL and no technologies |
| Navigation.App.constructor | frontend/app/page.tsx:1476-1480 | Landing view, no file, no project, roast mode |
| Navigation.App.HandleUploadComplete | frontend/app/page.tsx:1482-1485 | Stores the file and shows the choice screen; project and mode untouched |
| Navigation.App.HandleSubmit | frontend/app/page.tsx:439-447 | Without a picked file nothing changes; with one, upload completes |
| Navigation.App.HandleNavigate | frontend/app/page.tsx:1492-1502 | 'dashboard' sets roast and 'chat' sets rewrite, both showing project selection; any other view is set directly; file and project untouched |
| Navigation.App.HandleProjectSelect | frontend/app/page.tsx:1487-1489 | Records the project and changes nothing else |
| Navigation.App.SetView | frontend/app/page.tsx:1532-1540 | A child view's raw setter changes only the view (disconnecting keeps file, project and mode); the file invariant and the routing invariant are kept |
| Navigation.ProjectSelection.constructor | frontend/app/page.tsx:582-587 | No projects, loading, nothing selected, empty URL, mode taken from the app |
| Navigation.ProjectSelection.LoadProjects | frontend/app/page.tsx:589-613 | No file: no request and no change; success: the returned projects (none when absent); another status: unchanged; failure: empty; loading ends |
| Navigation.ProjectSelection.SelectProject | frontend/app/page.tsx:659 | Selects the clicked project |
| Navigation.ProjectSelection.EditManualUrl | frontend/app/page.tsx:705-708 | Replaces the URL and clears the selection |
| Navigation.ProjectSelection.Back | frontend/app/page.tsx:717 | Returns to the choice screen, keeping the uploaded file, the project and the mode |
| Navigation.ProjectSelection.HandleContinue | frontend/app/page.tsx:615-629 | A selected project wins over a typed URL; a typed URL becomes the manual entry; either moves to the mode's target; with neither nothing changes |
| Navigation.RoastDashboard.constructor | frontend/app/page.tsx:741-742 | No data and not loading |
| Navigation.RoastDashboard.FetchData | frontend/app/page.tsx:744-790 | No file: placeholder lists and no request; otherwise the URL is sent only when non-empty, an answer's data or the error lists are shown, and the loader stays exactly when the answer has no data |
| Conversation.TrimEmptyIffBlank | frontend/app/page.tsx:1239 | `trim()` leaves nothing exactly when every character is ECMAScript white space |
| Conversation.RoleName | frontend/app/page.tsx:1246 | The type string is "user" exactly for user entries and "system" exactly for system entries |
| Conversation.History | frontend/app/page.tsx:1246 | The history has no system entries and is no longer than the log |
| Conversation.HistoryAppend | frontend/app/page.tsx:1246 | The history of a concatenation is the concatenation of the histories, so order is kept |
| Conversation.HistoryOfOne | frontend/app/page.tsx:1246 | A system entry contributes nothing; any other entry contributes its type and text |
| Conversation.HistoryAllSystem | frontend/app/page.tsx:1246 | A log of system lines contributes no history |
| Conversation.SeedLog | frontend/app/page.tsx:1179-1182 | The defense banner followed by the question as an ai entry |
| Conversation.InitLog | frontend/app/page.tsx:1221-1228 | Channel banner, a project line only when a project is selected, assets banner, then the analysis as the one ai entry, defaulting to "Analysis complete." when missing or empty |
| Conversation.AnalyzedChatShown | frontend/app/page.tsx:1221 | The chat message from the backend is never empty, so it is shown instead of the default, and it is the only history the new log sends |
| Conversation.ChatInterface.constructor | frontend/app/page.tsx:1139-1152 | Empty log and input, both flags off, the mounted mode recorded |
| Conversation.ChatInterface.OnModeChange | frontend/app/page.tsx:1162-1170 | A different mode empties the log, clears both flags and records the mode, every other field kept; the same mode changes nothing |
| Conversation.ChatInterface.Seed | frontend/app/page.tsx:1177-1182 | Installs the seed log and sets both flags; every other field kept |
| Conversation.ChatInterface.HandleInit | frontend/app/page.tsx:1212-1234 | An answer sets `initialized` and replaces the whole log; a failure appends one error line and leaves `initialized`; loading ends off and every other field is kept |
| Conversation.ChatInterface.OnLoad | frontend/app/page.tsx:1173-1188 | A stored question seeds once in any mode and is removed, every other field kept; otherwise chat mode with a file and no init requests the analysis with the project URL or "" (log, `initialized` and loading as in `HandleInit`, every other field kept); otherwise nothing; once an interview is seeded the analysis is never requested |
| Conversation.ChatInterface.OnStorageEvent | frontend/app/page.tsx:1191-1208 | Only in interview mode, and only once, a stored question seeds the log and is removed, every other field kept; otherwise nothing changes |
| Conversation.ChatInterface.EditInput | frontend/app/page.tsx:1458 | Replaces the typed text and nothing else |
| Conversation.ChatInterface.HandleSend | frontend/app/page.tsx:1236-1258 | Blank text changes nothing and sends nothing; otherwise the user line, then exactly one reply or drop line, with the earlier log sent as history without system entries and the box cleared; no other field changes |
| Conversation.SendKeepsLog | frontend/app/page.tsx:1241-1256 | A send keeps every earlier entry and adds two; the next history gains the user text and the reply's entry |
| Conversation.ChatInterface.ToggleRepoInput | frontend/app/page.tsx:1450 | Flips the repository box and nothing else |
| Conversation.ChatInterface.EditRepoUrl | frontend/app/page.tsx:1401 | Replaces the repository URL and nothing else |
| Conversation.ChatInterface.HandleAddRepo | frontend/app/page.tsx:1261-1279 | Empty URL changes nothing; otherwise the scan line, then the bullets ("undefined" when absent) or one failure line; the box is hidden and cleared, repo loading ends off, and no other field changes |
| Conversation.ChatInterface.HandleCompile | frontend/app/page.tsx:1282-1299 | The request and wait lines, then the flagged resume entry or one failure line; no other field changes |
| Voice.VoiceInterview.constructor | frontend/app/page.tsx:868-876 | All flags off, welcome status, empty transcript, no recorder |
| Voice.VoiceInterview.StartCall | frontend/app/page.tsx:939-970 | The opening question (default when absent) replaces the transcript; success leaves the mic enabled; a failure ends the call, and after a speech failure speaking stays on |
| Voice.VoiceInterview.StartListening | frontend/app/page.tsx:973-998 | While speaking or processing nothing changes; a granted mic starts listening; a refused one leaves listening as it was |
| Voice.VoiceInterview.StopListening | frontend/app/page.tsx:1001-1007 | Only when listening: the recorder stops (which triggers processing) and listening ends |
| Voice.VoiceInterview.ProcessAudio | frontend/app/page.tsx:889-936 | An empty transcript logs nothing; a heard one logs exactly the transcript then the reply; processing always ends off; a failed speech request leaves speaking on and the mic disabled |
| Voice.VoiceInterview.EndCall | frontend/app/page.tsx:1010-1020 | From any state all four flags go off and the transcript empties; the result says a recording in progress will still be processed |

## Left out

- Network and model calls are inputs. This covers Gemini (analysis, chat,
  bullets, résumé, speech), Deepgram (listen, speak), PDF parsing
  (`ingest_pdf`) and the repository fetcher (`ingest_github`). Their answers
  enter as `Reply` values, and their prompts are not modelled.
- The regex searches `re.search` and `re.findall` are given as their matches
  (`RepoMatch`). Only the character class of the names is stated
  (`GithubUrl.RegexName`).
- Building the WAV header with `wave`, and base64 encoding, are not
  modelled. `Brain.SpeechAudio` takes the wrapped audio as an input that
  starts with RIFF. The paths where `generate_speech` returns nothing are
  not modelled.
- Exceptions raised by the fetcher, the PDF parser or file I/O inside
  `/analyze` and `/add_repo` are not modelled. Neither is the text of the
  error message they return.
- A fetcher that returns `None` is not modelled; the fetched code is always
  a string.
- The extraction endpoint's model path is not modelled. Only its regex
  fallback is.
- Timing and concurrency are not modelled. This covers React's asynchronous
  interleaving, the upload delay, stale closures and the `Typewriter`
  animation. Each asynchronous handler is one method taking all the answers
  it awaits.
- Message ids built from `Date.now()` are not modelled.
- The `interview_loading` storage flag is not modelled.
- Scrolling, the FX toggle, CSS, markup and loaders are presentation. The
  dashboard's `ShowsLoader` is kept because it shows the stuck state.
- Voice.VoiceInterview.ProcessAudio: requires that listening has ended.
  The user can release the mic and press it again before the recorder's
  stop handler runs, so processing starts while listening; that
  interleaving is not modelled.
- `Conversation.ChatInterface.HandleSend` models the typed-text path only.
  No caller passes `overrideInput`.
- `Conversation.ChatInterface.HandleCompile` shows an answer without a
  `resume` field as the empty text. The code's `undefined` renders as nothing.
- `Voice.VoiceInterview.EndCall` does not model the late turn it triggers.
  It reports through its result that one will follow, and
  `Voice.VoiceInterview.ProcessAudio` can then run after the call has ended.
- The ongoing Gemini Live session (`create_live_session`,
  `get_live_api_config`), the interview-question endpoints and
  `/generate_resume`'s prompt are configuration or model calls.
