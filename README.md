# Mentor de Carreira — a verified model of the front-end core

This project models the logic of the mobile-first career-mentoring web app "Mentor de Carreira". Its pages, hooks and helpers are written in TypeScript and React. The model covers:

- **The voice-command hooks.** Both `useVoiceCommands` hooks are modelled: the one under `src/hooks` and the one under `frontend/src/hooks`. This covers the ordered phrase tables (`VOICE_COMMANDS`) and the `processCommand` dispatcher. It also covers the listening session: the recognition events, the 500 ms dispatch timer, and start, stop and toggle.
- **The toast store** of `src/hooks/useToast.tsx`: `toast`, `dismiss`, `dismissAll` and the `useToast` guard.
- **The helpers of `frontend/src/lib/utils.ts`.** The CPF pair `isValidCPF` / `formatCPF` lives in `Cpf`. `formatText`, `truncateText`, `slugify`, `isValidEmail`, `isMobile` and `getDeviceType` live in `Utils`.
- **Four pages:**
  - the mock interview (`Interview`);
  - the job search with its filter chain and compatibility sort (`JobSearch`);
  - the course catalogue (`Courses`);
  - the résumé analysis (`ResumeAnalysis`).
- **Two mobile components:**
  - the page frame `MobileLayout`: route activity, title, bottom bar and menu;
  - the floating `VoiceButton`.

**Module layout:**
- `Wrappers`, `Text` and `Seqs` hold `Option`/`Result` and the JavaScript string and array operations the sources use. Those operations are `toLowerCase`, `trim`, `includes`, `startsWith`, `padStart`, `filter` and `map`.
- Every other module follows one source file. The exception is `VoiceTables`, `Dispatch` and `VoiceSession`, which the two hooks share.

**What the model represents and how:**
- **React state.** A page or component whose state the handlers change in place is a `class`. Its fields are the `useState` values and refs, and its methods are the handlers and effects. Each method states the whole new state.
- **Pure selections and lookups** are functions, with lemmas relating them to independent descriptions.
- **Loops the sources write.** The sources' own loops are `while`/`for` loops proved against specification functions:
  - the CPF weighted sums;
  - the interview score;
  - the recognition-result loop;
  - the compatibility sort on an array.
- **Filter chains.** The job and course filters are written as a chain of `if`s, each narrowing the running result. They are modelled the same way and proved equal to one filter by the conjunction of the active conditions (`JobSearch.FiltrarResultado`, `Courses.FiltradosIsOneFilter`).
- **Platform calls** are recorded as data in the object's state instead of being performed: router pushes, toasts, speech, vibration and `alert`.
- **Timers** are split into "schedule" and "fire" methods.
- **Randomness** is a parameter: the toast id, and the résumé score's `Math.random()`.

## Model

| member | source | states |
|---|---|---|
| Dispatch.ProcessCommand | src/hooks/useVoiceCommands.ts:283-316 | `processCommand`: cleans the command and resolves it; `UnmatchedIff`, `ExactPhraseFires` and `FallbackTakesFirstRelated` give its outcome |
| Dispatch.Resolve | src/hooks/useVoiceCommands.ts:286-314 | the exact phrase lookup first, then the scan for the first related phrase; `Resolve` returns the action it would invoke, or None when `processCommand` returns false |
| Dispatch.Normalise | src/hooks/useVoiceCommands.ts:283 | the cleaned command is lower-case and trimmed, and is the lower-cased command with only whitespace removed around it |
| Dispatch.NormaliseIdempotent | src/hooks/useVoiceCommands.ts:283 | cleaning a cleaned command changes nothing |
| Dispatch.ExactIndex | src/hooks/useVoiceCommands.ts:286-287 | the exact lookup returns the first entry whose phrase equals the command, or None exactly when no phrase equals it |
| Dispatch.RelatedIndex | src/hooks/useVoiceCommands.ts:299-302 | the scan returns the first entry whose phrase contains the command or is contained in it, or None exactly when no phrase relates |
| Dispatch.NormaliseOfClean | src/hooks/useVoiceCommands.ts:283 | a lower-case trimmed command is its own normal form |
| Dispatch.ExactPhraseFires | src/hooks/useVoiceCommands.ts:283-296 | a command whose cleaned form is a phrase fires that phrase's first entry, before any scan |
| Dispatch.ExactIndexIs | src/hooks/useVoiceCommands.ts:286-287 | the exact lookup is the first entry carrying the phrase |
| Dispatch.RelatedIndexIs | src/hooks/useVoiceCommands.ts:299-302 | the scan stops at the first related entry |
| Dispatch.CleanPhraseFires | src/hooks/useVoiceCommands.ts:286-296 | a clean phrase fires its own entry's action |
| Dispatch.FallbackTakesFirstRelated | src/hooks/useVoiceCommands.ts:299-314 | with no exact phrase, the fired action is that of the first related entry in table order |
| Dispatch.UnmatchedIff | src/hooks/useVoiceCommands.ts:286-316 | `processCommand` returns false with nothing invoked iff no phrase equals or relates to the cleaned command |
| Dispatch.FiredActionInTable | src/hooks/useVoiceCommands.ts:286-314 | every fired action is the action of some table entry |
| Dispatch.NormalisedCommandSameOutcome | src/hooks/useVoiceCommands.ts:283 | a command and its cleaned form have the same outcome, so "  VOLTAR " acts as "voltar" |
| Dispatch.BlankFiresFirstPhrase | src/hooks/useVoiceCommands.ts:283-302 | a whitespace-only command fires the first entry, since every phrase contains "" |
| VoiceTables.RootKeyAbsent | src/hooks/useVoiceCommands.ts:52-126 | a phrase outside the table has no exact entry |
| VoiceTables.FrontendKeyAbsent | frontend/src/hooks/useVoiceCommands.ts:52-125 | a phrase outside the table has no exact entry |
| VoiceTables.RootVoltarFires | src/hooks/useVoiceCommands.ts:58 | 'voltar' is the fifth entry and is exact |
| VoiceTables.RootMelhorarCurriculoFires | src/hooks/useVoiceCommands.ts:61 | 'melhorar currículo' is an exact phrase at index 5 |
| VoiceTables.RootTreinarEntrevistaFires | src/hooks/useVoiceCommands.ts:68 | 'treinar entrevista' is an exact phrase at index 10 |
| VoiceTables.RootAcharEmpregoFires | src/hooks/useVoiceCommands.ts:75 | 'achar emprego' is an exact phrase at index 15 |
| VoiceTables.FrontendAnalisarCurriculoFires | frontend/src/hooks/useVoiceCommands.ts:61 | 'analisar currículo' is an exact phrase at index 5 |
| VoiceTables.FrontendSimularEntrevistaFires | frontend/src/hooks/useVoiceCommands.ts:68 | 'simular entrevista' is an exact phrase at index 10 |
| VoiceTables.FrontendBuscarVagasFires | frontend/src/hooks/useVoiceCommands.ts:75 | 'buscar vagas' is an exact phrase at index 15 |
| VoiceTables.RootHintPhrasesAreExact | src/hooks/useVoiceCommands.ts:233-236 | every phrase suggested after a miss is clean and is an exact key |
| VoiceTables.FrontendHintPhrasesAreExact | frontend/src/hooks/useVoiceCommands.ts:232-235 | every phrase suggested after a miss is clean and is an exact key |
| VoiceTables.HintPhraseFires | frontend/src/hooks/useVoiceCommands.ts:283-291 | saying a suggested phrase fires that phrase's own action |
| VoiceTables.RootBlankGoesHome | src/hooks/useVoiceCommands.ts:283-302 | a blank transcript navigates to '/' via 'ir para home' |
| VoiceTables.FrontendBlankGoesHome | frontend/src/hooks/useVoiceCommands.ts:280-299 | a blank transcript navigates to '/' via 'ir para home' |
| VoiceTables.RootNothingRelatedBefore12 | src/hooks/useVoiceCommands.ts:53-69 | no phrase before 'entrevista' relates to "curso de entrevista" |
| VoiceTables.RootExampleIsNoPhrase | src/hooks/useVoiceCommands.ts:52-126 | "curso de entrevista" is not a phrase |
| VoiceTables.RootExampleRelatesToEntrevista | src/hooks/useVoiceCommands.ts:70 | the entry at index 12 is 'entrevista' → /entrevista/simulacao and relates to the example |
| VoiceTables.RootScanTakesFirstRelated | src/hooks/useVoiceCommands.ts:299-302 | the scan for "curso de entrevista" stops at 'entrevista' (line 70), not 'curso' (line 86) |
| VoiceTables.RootScanExample | src/hooks/useVoiceCommands.ts:299-314 | "curso de entrevista" navigates to /entrevista/simulacao |
| VoiceTables.FrontendCurriculoIsExact | frontend/src/hooks/useVoiceCommands.ts:65 | 'currículo' is exact at index 9, going to '/curriculo' |
| VoiceTables.FrontendCurriculoScanStopsEarlier | frontend/src/hooks/useVoiceCommands.ts:296-299 | the scan alone would stop at 'analisar currículo' → /curriculo/analise |
| VoiceTables.FrontendCurriculoExactBeatsScan | frontend/src/hooks/useVoiceCommands.ts:283-299 | the exact match wins: 'currículo' goes to '/curriculo' |
| VoiceTables.FrontendEntrevistaIsExact | frontend/src/hooks/useVoiceCommands.ts:72 | 'entrevista' is exact at index 14, going to '/entrevista' |
| VoiceTables.FrontendEntrevistaRelatedEarlier | frontend/src/hooks/useVoiceCommands.ts:68 | 'simular entrevista' relates to 'entrevista' earlier in the table |
| VoiceTables.FrontendEntrevistaExactBeatsScan | frontend/src/hooks/useVoiceCommands.ts:283-299 | the exact match wins: 'entrevista' goes to '/entrevista' |
| VoiceTables.FrontendVagasIsExact | frontend/src/hooks/useVoiceCommands.ts:78 | 'vagas' is exact at index 18, going to '/vagas' |
| VoiceTables.FrontendVagasRelatedEarlier | frontend/src/hooks/useVoiceCommands.ts:75 | 'buscar vagas' relates to 'vagas' earlier in the table |
| VoiceTables.FrontendVagasExactBeatsScan | frontend/src/hooks/useVoiceCommands.ts:283-299 | the exact match wins: 'vagas' goes to '/vagas' |
| VoiceTables.FrontendNothingRelatedBefore15 | frontend/src/hooks/useVoiceCommands.ts:53-74 | no phrase before 'buscar vagas' relates to "quero buscar vagas" |
| VoiceTables.FrontendExampleIsNoPhrase | frontend/src/hooks/useVoiceCommands.ts:52-125 | "quero buscar vagas" is not a phrase |
| VoiceTables.FrontendExampleRelatesToBuscarVagas | frontend/src/hooks/useVoiceCommands.ts:75 | the entry at index 15 is 'buscar vagas' → /vagas/busca and relates to the example |
| VoiceTables.FrontendScanTakesFirstRelated | frontend/src/hooks/useVoiceCommands.ts:296-299 | the scan for "quero buscar vagas" stops at 'buscar vagas' (line 75), ahead of 'vagas' and 'buscar' |
| VoiceTables.FrontendScanExample | frontend/src/hooks/useVoiceCommands.ts:296-311 | "quero buscar vagas" navigates to /vagas/busca |
| VoiceTables.ErrorMessage | frontend/src/hooks/useVoiceCommands.ts:247-256 | `errorMessages[event.error] \|\| template + code`; `ErrorMessageSpec` states both cases |
| VoiceTables.LookupMessage | frontend/src/hooks/useVoiceCommands.ts:247-256 | the error lookup returns a listed message for the code, or None exactly when the code is not listed |
| VoiceTables.ErrorMessageSpec | frontend/src/hooks/useVoiceCommands.ts:247-256 | a listed code shows its own message; any other code shows the template followed by the code |
| VoiceTables.RootAbortedMessage | src/hooks/useVoiceCommands.ts:255-259 | 'aborted' reads "Cancelado." in the first hook |
| VoiceTables.FrontendAbortedFallsBack | frontend/src/hooks/useVoiceCommands.ts:247-256 | 'aborted' reads "Erro no reconhecimento de voz: aborted" in the second hook |
| VoiceSession.FinalTranscript | src/hooks/useVoiceCommands.ts:194-212 | the transcript the result loop builds: each final segment's trimmed text appended in order; `FinalTranscriptJoinsFinals` relates it to an independent definition |
| VoiceSession.FinalTranscriptJoinsFinals | src/hooks/useVoiceCommands.ts:194-212 | the transcript is the texts of the final segments concatenated in order without separator; interim segments add nothing |
| VoiceSession.NoFinalNoTranscript | src/hooks/useVoiceCommands.ts:205-215 | without a final segment nothing is dispatched |
| VoiceSession.ConfidenceAfter | src/hooks/useVoiceCommands.ts:198-211 | the confidence after the loop: each segment with an alternative overwrites it; `ConfidenceFromLastSegment` and `ConfidenceKeptWithoutAlternatives` state which segment decides |
| VoiceSession.ConfidenceFromLastSegment | src/hooks/useVoiceCommands.ts:198-211 | the shown confidence comes from the last segment with an alternative: its own when final, `confidence \|\| 0.5` when interim |
| VoiceSession.ConfidenceKeptWithoutAlternatives | src/hooks/useVoiceCommands.ts:200 | segments without alternatives leave the confidence alone |
| VoiceSession.Outcome | src/hooks/useVoiceCommands.ts:220-240 | what the dispatch timer produces: the action and the executed toast on a match, the warning toast and hint speech on a miss |
| VoiceSession.OutcomeFiresIffFound | src/hooks/useVoiceCommands.ts:220-240 | the timer fires an action iff `processCommand` found one, and it is that action |
| VoiceSession.UnmatchedIsAnswered | src/hooks/useVoiceCommands.ts:230-237 | a miss is answered by a warning toast and by speech |
| VoiceSession.HintPhraseIsExecuted | frontend/src/hooks/useVoiceCommands.ts:219-236 | each suggested phrase, when spoken, fires its action and is confirmed |
| VoiceSession.Session.constructor | src/hooks/useVoiceCommands.ts:169-279 | mounting builds the recognizer when supported; a failing construction leaves an error and no recognizer |
| VoiceSession.Session.OnStart | src/hooks/useVoiceCommands.ts:182-186 | start sets listening and clears error and confidence |
| VoiceSession.Session.OnEnd | src/hooks/useVoiceCommands.ts:188-192 | end clears listening, processing and the guard |
| VoiceSession.Session.OnError | src/hooks/useVoiceCommands.ts:245-271 | every error stores its message, clears listening, processing and the guard, and raises a toast |
| VoiceSession.Session.OnResult | src/hooks/useVoiceCommands.ts:194-242 | the loop's confidence and transcript; a non-empty final transcript is queued only when the guard is down, and the guard is raised |
| VoiceSession.Session.OnDispatchTimer | src/hooks/useVoiceCommands.ts:220-240 | the queued transcript is dispatched, `lastCommand` is set on success, and processing and the guard are cleared |
| VoiceSession.Session.StartListening | src/hooks/useVoiceCommands.ts:320-338 | nothing when unsupported, uninitialised or already listening; otherwise start, arm the timeout, or record the failure |
| VoiceSession.Session.StopListening | src/hooks/useVoiceCommands.ts:341-350 | stop is called only while listening; the timeout handle is always cleared |
| VoiceSession.Session.ToggleListening | src/hooks/useVoiceCommands.ts:353-359 | stops while listening, starts otherwise |
| Toasts.WithId | src/hooks/useToast.tsx:33-39 | the stored toast keeps every field, takes the id, and defaults the duration to 5000 |
| Toasts.AutoDismissIff | src/hooks/useToast.tsx:38-44 | a dismissal timer is set iff the duration is omitted or positive |
| Toasts.RemoveId | src/hooks/useToast.tsx:52-54 | `prev.filter(toast => toast.id !== id)`; `RemoveIdSpec`, `RemoveAbsentId` and `RemoveIdIdempotent` give its meaning |
| Toasts.RemoveIdSpec | src/hooks/useToast.tsx:52-54 | dismissing keeps exactly the toasts with another id, in order |
| Toasts.RemoveAbsentId | src/hooks/useToast.tsx:52-54 | dismissing an unknown id changes nothing |
| Toasts.RemoveIdIdempotent | src/hooks/useToast.tsx:52-54 | dismissing twice is dismissing once |
| Toasts.RemoveJustAdded | src/hooks/useToast.tsx:41-53 | dismissing a toast just added under a fresh id restores the list |
| Toasts.ToastStore.constructor | src/hooks/useToast.tsx:30 | the list starts empty |
| Toasts.ToastStore.Add | src/hooks/useToast.tsx:33-49 | the toast is appended and its dismissal scheduled when the duration is positive |
| Toasts.ToastStore.Dismiss | src/hooks/useToast.tsx:52-54 | the list becomes the list without that id |
| Toasts.ToastStore.DismissAll | src/hooks/useToast.tsx:57-59 | the list becomes empty |
| Toasts.ToastStore.OnAutoDismiss | src/hooks/useToast.tsx:45-47 | a firing timer dismisses its toast's id |
| Toasts.UseToast | src/hooks/useToast.tsx:69-77 | the hook fails exactly outside a provider, and otherwise returns the provider's store |
| Utils.Split | frontend/src/lib/utils.ts:17 | `split` yields at least one piece and no piece holds the separator |
| Utils.SplitJoin | frontend/src/lib/utils.ts:17-19 | joining the pieces of a split with the same separator restores the text |
| Utils.JoinTrimmed | frontend/src/lib/utils.ts:18-20 | joining non-empty trimmed pieces gives a trimmed text |
| Utils.FormatText | frontend/src/lib/utils.ts:15-21 | split on newlines, trim each line, drop empty lines and join with a space; `FormatTextLine` and `FormatTextNewline` determine it for every text |
| Utils.FormatTextShape | frontend/src/lib/utils.ts:15-21 | formatted text holds no newline and no surrounding whitespace |
| Utils.FormatTextOfFormatted | frontend/src/lib/utils.ts:15-21 | a one-line trimmed text is its own format |
| Utils.FormatTextIdempotent | frontend/src/lib/utils.ts:15-21 | formatting twice equals formatting once |
| Utils.FormatTextLine | frontend/src/lib/utils.ts:15-21 | a text without a line break formats as its trimmed self |
| Utils.FormatTextNewline | frontend/src/lib/utils.ts:15-21 | a line break between two texts gives their formatted forms joined by one space, and a side that formats empty (a blank line) contributes nothing |
| Utils.BlankLineDropped | frontend/src/lib/utils.ts:18-20 | "a\n\nb" formats as "a b": the blank line is dropped |
| Utils.TruncateText | frontend/src/lib/utils.ts:93-96 | the text when within the limit, else its trimmed prefix of `maxLength` characters plus "..."; `TruncateTextSpec` states the bounds |
| Utils.TruncateTextSpec | frontend/src/lib/utils.ts:93-96 | text within the limit is unchanged; longer text becomes its first `maxLength` characters with only the whitespace at their ends removed, followed by "...", at most `maxLength+3` long |
| Utils.TruncateCanReturnLongerInput | frontend/src/lib/utils.ts:93-96 | the converse fails: "ab..." truncated to 2 comes back unchanged |
| Utils.FoldAccent | frontend/src/lib/utils.ts:164-165 | a character that folding changes always becomes a base letter a-z |
| Utils.DashRuns | frontend/src/lib/utils.ts:166 | the result holds only [a-z0-9-], never "--", and starts with the input's first character when that is in [a-z0-9] |
| Utils.DashRunsIsRunDashes | frontend/src/lib/utils.ts:166 | the replacement equals the left-to-right reading: every [a-z0-9] character is kept and every run of other characters becomes exactly one dash |
| Utils.RunDashesKeepsSlugChars | frontend/src/lib/utils.ts:166 | that reading keeps exactly the input's [a-z0-9] characters, in order |
| Utils.DashRunsKeepsSlugChars | frontend/src/lib/utils.ts:166 | the replacement keeps exactly the input's [a-z0-9] characters, in order |
| Utils.TrimDashesKeepsSlugChars | frontend/src/lib/utils.ts:167 | removing a leading and a trailing dash keeps every letter and digit |
| Utils.SlugifyKeepsSlugChars | frontend/src/lib/utils.ts:161-168 | the slug's letters and digits are exactly those of the lower-cased, accent-folded text, in order |
| Utils.Slugify | frontend/src/lib/utils.ts:161-168 | lower-case, fold accents, replace each run of other characters by one dash and strip the end dashes; `SlugifyShape` and `SlugifyKeepsSlugChars` state the result |
| Utils.SlugifyShape | frontend/src/lib/utils.ts:161-168 | a slug holds only [a-z0-9-], never starts or ends with '-', and never holds "--" |
| Utils.IndexOf | frontend/src/lib/utils.ts:109 | the first occurrence of a character, or None when absent |
| Utils.IsValidEmail | frontend/src/lib/utils.ts:108-111 | the regex `^[^\s@]+@[^\s@]+\.[^\s@]+$` as some split of the text; `IsValidEmailIff` reads it in plain terms |
| Utils.IsValidEmailIff | frontend/src/lib/utils.ts:108-111 | the email pattern holds iff there is exactly one '@', a non-blank local part, and a whitespace-free domain with an inner '.' |
| Utils.GetDeviceType | frontend/src/lib/utils.ts:204-212 | desktop without a window, else mobile below 768, tablet below 1024, desktop otherwise; `DeviceBands` states the bands |
| Utils.IsMobile | frontend/src/lib/utils.ts:59-62 | false without a window, else `innerWidth < 768`; `DeviceBands` shows it agrees with the mobile type |
| Utils.DeviceBands | frontend/src/lib/utils.ts:204-212 | `isMobile` agrees with the mobile type; the bands are below 768, 768 to 1023, and the rest (or no window) |
| Cpf.DigitsOf | frontend/src/lib/utils.ts:117 | the cleaned CPF holds only digits |
| Cpf.CheckDigit | frontend/src/lib/utils.ts:127-128 | a check digit is below 10 |
| Cpf.ValidCpf | frontend/src/lib/utils.ts:116-140 | the specification of `isValidCPF`: 11 digits, not a repdigit, and both check digits correct; `IsValidCpf` is proved equal to it |
| Cpf.IsValidCpf | frontend/src/lib/utils.ts:116-140 | the two loops return true iff the cleaned CPF has 11 digits, is not a repdigit, and both check digits are correct |
| Cpf.WeightedSumOfRepdigit | frontend/src/lib/utils.ts:122-125 | a repdigit's weighted sum is its digit times the sum of the weights |
| Cpf.RepdigitsPassCheckDigits | frontend/src/lib/utils.ts:120-138 | all ten repdigits pass both check digits, so the repdigit test is what rejects them |
| Cpf.InvalidShapes | frontend/src/lib/utils.ts:119-120 | a CPF without exactly 11 digits, or with eleven equal digits, is invalid |
| Cpf.FormatCpf | frontend/src/lib/utils.ts:146-149 | the digits, with the first eleven laid out as ddd.ddd.ddd-dd when there are at least eleven; the `FormatCpf*` lemmas state layout, digits and validity |
| Cpf.FormatCpfLayout | frontend/src/lib/utils.ts:146-149 | eleven digits format as ddd.ddd.ddd-dd |
| Cpf.FormatCpfShort | frontend/src/lib/utils.ts:146-149 | fewer than eleven digits come back as the bare digits |
| Cpf.FormatCpfKeepsDigits | frontend/src/lib/utils.ts:146-149 | formatting keeps the digit sequence |
| Cpf.FormatCpfPreservesValidity | frontend/src/lib/utils.ts:116-149 | a CPF and its formatting are equally valid, and formatting is idempotent |
| Cpf.ExampleSums | frontend/src/lib/utils.ts:122-133 | for 52998224725 the two weighted sums are 295 and 347 |
| Cpf.ValidExample | frontend/src/lib/utils.ts:116-140 | 52998224725 is a valid CPF |
| Interview.DicaPara | src/app/entrevista/simulacao/page.tsx:33-44 | a tip exists iff the question is a key of the tip table, and it is that key's tip |
| Interview.DicasCoverPerguntas | src/app/entrevista/simulacao/page.tsx:20-44 | the tip table's keys are the ten questions, in order |
| Interview.EveryQuestionHasTip | src/app/entrevista/simulacao/page.tsx:20-44 | every question has a tip |
| Interview.Feedback | src/app/entrevista/simulacao/page.tsx:82-88 | the feedback text by answer length; `FeedbackBands` states the three bands |
| Interview.FeedbackBands | src/app/entrevista/simulacao/page.tsx:82-88 | the feedback is "short" iff under 20 characters, "long" iff over 300, "good" otherwise |
| Interview.Pontuacao | src/app/entrevista/simulacao/page.tsx:125-132 | the score never exceeds 100 |
| Interview.PontosResposta | src/app/entrevista/simulacao/page.tsx:127-130 | 20 points for 50 to 250 characters, 10 for at least 20, 0 otherwise; `IdealAnswersScoreFull` and `ShortAnswersScoreZero` use it |
| Interview.SomaPontosBounds | src/app/entrevista/simulacao/page.tsx:127-130 | the raw sum is at most 20 per answer and a multiple of 10 |
| Interview.IdealAnswersScoreFull | src/app/entrevista/simulacao/page.tsx:127-131 | answers of 50 to 250 characters earn 20 each, and five of them already reach 100 |
| Interview.ShortAnswersScoreZero | src/app/entrevista/simulacao/page.tsx:127-131 | answers under 20 characters earn nothing |
| Interview.PaddedValue | src/app/entrevista/simulacao/page.tsx:122 | a number below 100 pads to two digits that read back as itself |
| Interview.FormatarTempo | src/app/entrevista/simulacao/page.tsx:119-123 | minutes, a colon and two-digit seconds; `FormatarTempoRoundTrip` reads the seconds back |
| Interview.FormatarTempoRoundTrip | src/app/entrevista/simulacao/page.tsx:119-123 | m:ss has a colon three from the end, two-digit seconds below 60, and m*60+ss gives the seconds back |
| Interview.Simulacao.constructor | src/app/entrevista/simulacao/page.tsx:48-56 | the initial state |
| Interview.Simulacao.DicaAtual | src/app/entrevista/simulacao/page.tsx:283 | the current question always has a tip |
| Interview.Simulacao.IniciarSimulacao | src/app/entrevista/simulacao/page.tsx:68-75 | starting resets question, answers and timer, runs the clock and clears completion |
| Interview.Simulacao.Digitar | src/app/entrevista/simulacao/page.tsx:296 | typing sets the answer only |
| Interview.Simulacao.AlternarDica | src/app/entrevista/simulacao/page.tsx:273 | the tip toggle flips visibility only |
| Interview.Simulacao.Tick | src/app/entrevista/simulacao/page.tsx:58-66 | the clock adds a second only while running |
| Interview.Simulacao.FinalizarSimulacao | src/app/entrevista/simulacao/page.tsx:103-106 | finishing stops the clock and marks completion |
| Interview.Simulacao.ProximaPergunta | src/app/entrevista/simulacao/page.tsx:77-101 | a blank answer only alerts; otherwise the answer is recorded with its feedback, then the next question or completion |
| Interview.Simulacao.ReiniciarSimulacao | src/app/entrevista/simulacao/page.tsx:108-117 | restarting resets every field it names and keeps the tip visibility |
| Interview.Simulacao.CalcularPontuacao | src/app/entrevista/simulacao/page.tsx:125-132 | the loop computes the capped score, between 0 and 100 |
| Interview.AnswerAll | src/app/entrevista/simulacao/page.tsx:77-106 | ten non-blank answers complete the interview with exactly those answers recorded |
| JobSearch.Filtradas | src/app/vagas/busca/page.tsx:141-172 | the postings every active filter keeps, in order; `FiltrarResultado` proves the page's `if`-chain equal to it and `FiltradasSpec` gives its meaning |
| JobSearch.FiltradasSpec | src/app/vagas/busca/page.tsx:141-172 | the filtered list keeps the order and holds exactly the jobs passing every active filter |
| JobSearch.SemFiltrosMostraTudo | src/app/vagas/busca/page.tsx:141-172 | with every filter cleared all jobs are shown |
| JobSearch.SalarioIgnorado | src/app/vagas/busca/page.tsx:123-172 | the salary filter has no effect on the result |
| JobSearch.OutraExperienciaIgnorada | src/app/vagas/busca/page.tsx:162-168 | only 'sem-experiencia' filters experience; any other value is ignored |
| JobSearch.FiltradasIdempotent | src/app/vagas/busca/page.tsx:141-172 | filtering the filtered list changes nothing |
| JobSearch.FiltrarResultado | src/app/vagas/busca/page.tsx:141-172 | the step-by-step filter chain equals one filter by the conjunction of the active filters |
| JobSearch.OrdenarPorCompatibilidade | src/app/vagas/busca/page.tsx:343-344 | the jobs are sorted by compatibility, highest first, with a missing value as 0; they form a permutation of the input, and jobs of equal compatibility keep their order, as the stable `Array.prototype.sort` keeps it |
| JobSearch.CorCompatibilidade | src/app/vagas/busca/page.tsx:183-188 | the colour band of a compatibility value; `CorBands` states each band both ways |
| JobSearch.CorBands | src/app/vagas/busca/page.tsx:183-188 | grey iff the value is missing or 0; green iff ≥80; yellow iff 60-79; red iff non-zero and below 60 |
| JobSearch.BuscaVagas.constructor | src/app/vagas/busca/page.tsx:117-129 | the page mounts loading, with no jobs and no filters |
| JobSearch.BuscaVagas.FiltrarVagas | src/app/vagas/busca/page.tsx:141-172 | the shown list becomes the filtered jobs for the current filters |
| JobSearch.BuscaVagas.CarregarVagas | src/app/vagas/busca/page.tsx:127-139 | loading stores the list, stops loading and refilters |
| JobSearch.BuscaVagas.AlterarFiltros | src/app/vagas/busca/page.tsx:137-139 | changing a filter refilters |
| JobSearch.BuscaVagas.LimparFiltros | src/app/vagas/busca/page.tsx:320-326 | clearing the filters shows every job |
| JobSearch.BuscaVagas.BuscarVagas | src/app/vagas/busca/page.tsx:174-181 | searching (only while not loading) sets loading and keeps the list and filters of the click, which the scheduled `filtrarVagas` closure will apply |
| JobSearch.BuscaVagas.ConcluirBusca | src/app/vagas/busca/page.tsx:177-180 | the search timer shows the click-time list filtered by the click-time filters and stops loading; the shown list matches the current filters only when neither changed |
| JobSearch.BuscaComFiltrosAlterados | src/app/vagas/busca/page.tsx:137-180 | filters edited during the wait end with the current inputs but the list the click's filters select |
| Courses.Filtrados | src/app/cursos/page.tsx:193-221 | the five-step chain of `filtrarCursos`; `FiltradosIsOneFilter` proves it one filter by the conjunction of the conditions |
| Courses.FiltradosIsOneFilter | src/app/cursos/page.tsx:193-221 | the chain equals filtering once by "every active filter keeps the course" |
| Courses.FiltradosSubsequence | src/app/cursos/page.tsx:193-221 | the filtered courses keep the catalogue's order |
| Courses.FiltradosMember | src/app/cursos/page.tsx:193-221 | a course is shown iff it is in the catalogue and passes every active filter |
| Courses.TermoIff | src/app/cursos/page.tsx:196-202 | the search term matches the title, the category or any skill, ignoring case |
| Courses.SemFiltrosMostraTudo | src/app/cursos/page.tsx:193-221 | with no filter every course is shown |
| Courses.FiltradosKeepsAll | src/app/cursos/page.tsx:193-221 | when every course passes, the list is unchanged |
| Courses.FiltradosIdempotent | src/app/cursos/page.tsx:193-221 | filtering the filtered list changes nothing |
| Courses.ObterCorNivel | src/app/cursos/page.tsx:223-230 | the colour of a level; `CorNivelIff` states it both ways |
| Courses.CorNivelIff | src/app/cursos/page.tsx:223-230 | green, yellow and red are the three named levels; every other level is grey |
| Courses.Estrelas | src/app/cursos/page.tsx:232-243 | there are always five stars |
| Courses.EstrelasFilled | src/app/cursos/page.tsx:232-243 | star i is filled iff i is below the rating's floor; the filled count is that floor clamped to 0..5 |
| Courses.FilledPrefixCount | src/app/cursos/page.tsx:236-238 | a filled prefix of length n counts n stars |
| Courses.RotuloContagem | src/app/cursos/page.tsx:383 | the count label "n curso(s) encontrado(s)"; `RotuloSingularIff` states when it is singular |
| Courses.RotuloSingularIff | src/app/cursos/page.tsx:383 | the label is singular exactly for one course, plural otherwise |
| Courses.CatalogoCursos.constructor | src/app/cursos/page.tsx:170-181 | the catalogue mounts loading, with no courses and no filters |
| Courses.CatalogoCursos.FiltrarCursos | src/app/cursos/page.tsx:193-221 | the step-by-step filter chain leaves the shown list equal to the filtered catalogue |
| Courses.CatalogoCursos.CarregarCursos | src/app/cursos/page.tsx:179-191 | loading stores the courses, stops loading and refilters |
| Courses.CatalogoCursos.AlterarFiltros | src/app/cursos/page.tsx:189-191 | changing a filter refilters |
| Courses.CatalogoCursos.LimparFiltros | src/app/cursos/page.tsx:367-373 | clearing the filters shows every course |
| MobileLayout.ActiveRoute | frontend/src/components/mobile/MobileLayout.tsx:109-111 | `navigationRoutes.find(isActive)`; `ActiveIndex`, `AtMostOneActive` and `ActiveRouteIs` state which route it finds |
| MobileLayout.ActiveIndex | frontend/src/components/mobile/MobileLayout.tsx:109-111 | the active route is the first active one in table order, or none iff no route is active |
| MobileLayout.RootOnlyExact | frontend/src/components/mobile/MobileLayout.tsx:110 | '/' is active iff the pathname is exactly '/' |
| MobileLayout.PathsPrefixFree | frontend/src/components/mobile/MobileLayout.tsx:29-66 | no path of the table other than '/' is a prefix of another |
| MobileLayout.AtMostOneActive | frontend/src/components/mobile/MobileLayout.tsx:29-66 | with this table at most one route is active for any pathname |
| MobileLayout.ActiveRouteIs | frontend/src/components/mobile/MobileLayout.tsx:109-111 | any active route is the active route |
| MobileLayout.CursosPrefixQuirk | frontend/src/components/mobile/MobileLayout.tsx:110 | '/cursosx' activates Cursos: the prefix test ignores segment boundaries |
| MobileLayout.CurriculoSubpage | frontend/src/components/mobile/MobileLayout.tsx:110 | '/curriculo/analise' activates Currículo |
| MobileLayout.PageTitle | frontend/src/components/mobile/MobileLayout.tsx:114 | `title \|\| activeRoute?.name \|\| 'Mentor de Carreira'`; `PageTitleSpec` states the three cases |
| MobileLayout.PageTitleSpec | frontend/src/components/mobile/MobileLayout.tsx:114 | the title is a non-empty `title`, else the active route's label, else 'Mentor de Carreira' |
| MobileLayout.BottomNavigation | frontend/src/components/mobile/MobileLayout.tsx:261 | the bottom bar is the first four routes, in order |
| MobileLayout.BottomNavigationPaths | frontend/src/components/mobile/MobileLayout.tsx:29-66 | the bottom bar offers '/', '/curriculo', '/entrevista' and '/vagas', and neither courses nor profile |
| MobileLayout.LayoutState.constructor | frontend/src/components/mobile/MobileLayout.tsx:75-76 | the menu starts closed and the header unscrolled |
| MobileLayout.LayoutState.OpenMenu | frontend/src/components/mobile/MobileLayout.tsx:146 | the menu button opens the menu |
| MobileLayout.LayoutState.CloseMenu | frontend/src/components/mobile/MobileLayout.tsx:179-188 | the overlay and the close button close the menu |
| MobileLayout.LayoutState.HandleNavigation | frontend/src/components/mobile/MobileLayout.tsx:117-120 | navigating pushes the path and closes the menu |
| MobileLayout.LayoutState.GoBack | frontend/src/components/mobile/MobileLayout.tsx:138 | the back button goes back in history |
| MobileLayout.LayoutState.OpenSettings | frontend/src/components/mobile/MobileLayout.tsx:162 | the settings button pushes '/configuracoes' |
| MobileLayout.LayoutState.OnPathnameChange | frontend/src/components/mobile/MobileLayout.tsx:91-93 | a render with a different pathname closes the menu; the same pathname leaves the menu as it is |
| MobileLayout.LayoutState.OnScroll | frontend/src/components/mobile/MobileLayout.tsx:82-84 | the header counts as scrolled iff scrollY exceeds 10 |
| VoiceButton.GetButtonState | src/components/voice/VoiceButton.tsx:84-90 | the button state from the hook flags; `ButtonStatePriority` states the priority order |
| VoiceButton.ButtonStatePriority | src/components/voice/VoiceButton.tsx:84-90 | each state is shown iff its flag is set and no flag above it is, in the order error > processing > listening > speaking > idle |
| VoiceButton.GetIcon | src/components/voice/VoiceButton.tsx:150-162 | the icon per state; `IdleIconIsMic` shows the idle branch draws the microphone |
| VoiceButton.IdleIconIsMic | src/components/voice/VoiceButton.tsx:150-162 | in the idle state the icon is always the microphone, so the speaker branch is dead |
| VoiceButton.GetTooltipText | src/components/voice/VoiceButton.tsx:166-181 | the tooltip per state; `TooltipSpec` and `TooltipsDistinguishStates` state its cases |
| VoiceButton.TooltipSpec | src/components/voice/VoiceButton.tsx:166-181 | "unsupported" overrides every state; the error tooltip shows the message, or the fallback when it is empty |
| VoiceButton.TooltipsDistinguishStates | src/components/voice/VoiceButton.tsx:169-180 | different states of a supported button have different tooltips |
| VoiceButton.ShowConfidence | src/components/voice/VoiceButton.tsx:207 | the condition `isListening && confidence > 0` for the confidence dot; `ShowConfidenceIff` states it |
| VoiceButton.ShowConfidenceIff | src/components/voice/VoiceButton.tsx:207 | the confidence dot shows iff listening with confidence above 0 |
| VoiceButton.Button.constructor | src/components/voice/VoiceButton.tsx:34-35 | the button starts neither pressed nor showing feedback |
| VoiceButton.Button.HandlePress | src/components/voice/VoiceButton.tsx:55-64 | unsupported: nothing; otherwise pressed, a short vibration, then toggle |
| VoiceButton.Button.ReleaseTimer | src/components/voice/VoiceButton.tsx:63 | the 150 ms timer releases the button |
| VoiceButton.Button.HandlePressStart | src/components/voice/VoiceButton.tsx:67-73 | unsupported: nothing; otherwise pressed, vibrate 100, start listening |
| VoiceButton.Button.HandlePressEnd | src/components/voice/VoiceButton.tsx:75-81 | always releases; vibrates and stops only while listening |
| VoiceButton.Button.OnLastCommand | src/components/voice/VoiceButton.tsx:38-45 | an unchanged `lastCommand` changes nothing; a changed one cancels the pending hide timer, and when non-empty shows the bubble and arms a new timer |
| VoiceButton.Button.HideFeedbackTimer | src/components/voice/VoiceButton.tsx:41 | the pending two-second timer hides the bubble |
| VoiceButton.Button.DismissTutorial | src/components/voice/VoiceButton.tsx:259-262 | the tutorial's button hides the bubble and leaves the timer alone |
| VoiceButton.RepeatedCommandShowsNoBubble | src/components/voice/VoiceButton.tsx:38-45 | a new command recognised again after its bubble timed out shows no new bubble |
| VoiceButton.UnsupportedPressIsInert | src/components/voice/VoiceButton.tsx:56-68 | presses on an unsupported button change nothing |
| ResumeAnalysis.Compatibilidade | src/app/curriculo/analise/page.tsx:33 | the score is in [70,99] with a job text and in [60,79] without |
| ResumeAnalysis.CompatibilidadeReachable | src/app/curriculo/analise/page.tsx:33 | every score of the band comes from some draw |
| ResumeAnalysis.AnaliseSimulada | src/app/curriculo/analise/page.tsx:32-50 | the result has 3 strengths, 4 improvements and 3 next steps, and the drawn score |
| ResumeAnalysis.Mensagem | src/app/curriculo/analise/page.tsx:174-176 | the result message by score; `MensagemBands` states the three bands |
| ResumeAnalysis.MensagemBands | src/app/curriculo/analise/page.tsx:174-176 | excellent iff ≥80, good iff 60-79, "room to improve" iff below 60 |
| ResumeAnalysis.MensagemMelhorarUnreachable | src/app/curriculo/analise/page.tsx:33 | no draw reaches the third message |
| ResumeAnalysis.SemVagaNuncaExcelente | src/app/curriculo/analise/page.tsx:33 | without a job text the message is always "good" |
| ResumeAnalysis.ComVagaExcelente | src/app/curriculo/analise/page.tsx:33 | with a job text the message is excellent iff the draw is at least one third |
| ResumeAnalysis.Pagina.constructor | src/app/curriculo/analise/page.tsx:17-20 | empty texts, not analysing, no result |
| ResumeAnalysis.Pagina.EditarCurriculo | src/app/curriculo/analise/page.tsx:102 | typing sets the résumé text only |
| ResumeAnalysis.Pagina.EditarVaga | src/app/curriculo/analise/page.tsx:119 | typing sets the job text only |
| ResumeAnalysis.Pagina.AnalisarCurriculo | src/app/curriculo/analise/page.tsx:22-28 | a whitespace-only résumé only alerts; otherwise analysis starts with the current job text captured |
| ResumeAnalysis.Pagina.ConcluirAnalise | src/app/curriculo/analise/page.tsx:31-54 | completion stores the simulated result and clears `analisando` |
| ResumeAnalysis.Pagina.NovaAnalise | src/app/curriculo/analise/page.tsx:230-234 | reset clears the result and both texts |
| ResumeAnalysis.Analisar | src/app/curriculo/analise/page.tsx:22-54 | a submission yields a result iff the résumé is not blank, with the score in its band |
| Text.Lower | src/hooks/useVoiceCommands.ts:283 | `toLowerCase` keeps the length and lowers every character on its own |
| Text.TrimSpec | src/hooks/useVoiceCommands.ts:283 | `trim` yields a trimmed slice of its input with only whitespace before and after it, empty iff the input is all whitespace |
| Text.TrimUnique | src/hooks/useVoiceCommands.ts:283 | a trimmed slice with only whitespace around it is the result of `trim`, so `TrimSpec` determines it |
| Text.TrimIdempotent | src/hooks/useVoiceCommands.ts:283 | trimming twice is trimming once |
| Text.ContainsIffOccurs | src/hooks/useVoiceCommands.ts:301 | `includes` holds iff the needle occurs at some position |
| Text.DecimalRoundTrip | src/app/entrevista/simulacao/page.tsx:122 | a number's decimal digits read back as the number |
| Text.PadStart | src/app/entrevista/simulacao/page.tsx:122 | `padStart` reaches the width, keeps the text at the end, and pads with the fill character |
| Seqs.FilterMember | src/app/vagas/busca/page.tsx:145-167 | `filter` keeps exactly the elements satisfying the predicate |
| Seqs.FilterIsSubsequence | src/app/cursos/page.tsx:197-217 | `filter` keeps the order |
| Seqs.FilterFilter | src/app/vagas/busca/page.tsx:141-172 | two filters in a row are one filter by the conjunction |

## Left out

- **Rendering:** JSX, class strings (`cn`), icons and styling are not modelled, and neither is the first-use tutorial overlay of the voice button, except its dismiss action.
- **The data tables:** `vagasSimuladas` and `cursosSimulados` are not reproduced. The lists are parameters of the loading methods.
- **The `in` operator:** `cleanCommand in VOICE_COMMANDS` also accepts inherited property names such as "constructor". The model looks up the table's own phrases only.
- **Timers:** every timer is a pair of methods (schedule, fire). Delays and interleavings beyond firing order are not modelled. The hook's 30-second safety timeout is modelled only as the armed/cleared handle. Its callback, which reads a stale `isListening`, is not modelled.
- **`speak`:** its rate, pitch and volume defaults and its Promise are not modelled. A speech request is recorded as an output.
- **Browser calls:** router, history, `vibrate`, `alert`, `localStorage`, `document.body.style` and `window.open` are recorded as outputs or left out. The body-overflow effect of the mobile layout is left out.
- **Unicode:** `toLowerCase` covers ASCII and Latin-1 letters. `normalize('NFD')` is modelled as folding the Latin-1 lower-case accented letters to their base letter.
- **Floating point:**
  - the confidence opacity and scale, and `Math.round(confidence*100)`;
  - `formatBytes`, `formatCurrency` and `formatDate`;
  - ratings, confidences and `window.scrollY` are `real`.
- **Other helpers:** `debounce`, `throttle`, `capitalize`, `isDarkMode`, `generateId`, `sleep`, `copyToClipboard`, `isPWA`, `getConnectionInfo`, `isOffline`, `hasTouchSupport` and `getSafeAreaInsets` are environment probes or thin wrappers.
- Utils.TruncateText, Interview.Feedback, Interview.PontosResposta, Interview.Simulacao.CalcularPontuacao: lengths are counted in code points, not in the UTF-16 code units of JavaScript's `.length`. A character outside the Basic Multilingual Plane (an emoji, say) counts 2 in the source and 1 here, so such texts can fall in a different length band.
- **Course sort:** the comparator `b.popular ? 1 : -1` is not a consistent ordering, and its result depends on the engine's sort.
- **The jobs filter panel toggle** (`filtroAberto`) only shows or hides inputs.
- JobSearch.OrdenarPorCompatibilidade and Courses.CatalogoCursos: the display sorts (`vagasFiltradas.sort` in the job search at line 344, `cursosFiltrados.sort` in the courses page at line 392) run in place on the state array. With no filter active that array is the same object as `vagas` (or `cursos`), so each render also reorders the full list, and later filter results follow that reordered list. The model sorts a separate array and keeps the loaded order in `vagas` and `cursos`.
- JobSearch.CorBands: compatibility is an integer. The source's `number` could carry a fraction, and fractions are not modelled.
- Interview.Simulacao.ProximaPergunta and Interview.AnswerAll: the invariant is promised only while the interview runs. Outside it the page does not render the button.
- ResumeAnalysis.Pagina.AnalisarCurriculo: it requires that no analysis is running. The submit button is disabled while `analisando` is set.
- VoiceSession.Session.OnResult: a result event's `event.results` is a sequence of segments in the model. The browser's live list object is not modelled.
- Utils.TruncateTextSpec: "unchanged iff within the limit" holds only from left to right. `TruncateCanReturnLongerInput` shows a long text that comes back unchanged.
