# Mariem patient simulator: the dialogue and talking-state core

Mariem is a simulated dermatology patient: a 3D avatar that a trainee doctor
talks to. This project models the parts of it that decide what she says and
when her mouth moves. All of them are deterministic string matching or small
state machines over integer time.

- **Knowledge base** (`KnowledgeBase`). Nineteen question/answer entries and
  `findBestAnswer`. The resolver lower-cases and trims the question and then
  tries three phases in order: the first entry with a keyword hit (entries
  and keywords in declaration order), then the first entry whose question
  text contains the input or is contained in it, then a fixed default. Two
  helpers sit beside it: the category filter and the first-occurrence list
  of categories.
- **Conversation AI** (`ConversationAi`). The `generateResponse` chain of
  substring tests and the memory record each call appends to. The chain has
  seventeen guarded branches and a default. Each branch yields a reply, a
  mood, a topic and an animation. `clearMemory` resets the record.
- **Patient responder** (`Patient`). `mariemRespond`: a 43-branch
  first-match chain over the lower-cased, untrimmed input. Personal facts
  come first. Three branch groups move the conversation phase and the
  character's mood, and the greeting and default replies depend on whether
  the doctor has asked about the problem yet. Also modelled: the input
  handler that feeds the responder, and the two status labels.
- **Talking synchroniser** (`Talking`). The effect that smooths the raw
  "is speaking" signal into a `continuousTalking` flag. A rise arms a 5 s
  hold timer; a fall arms a 3 s release timer. The mouth-animation gate is
  modelled too. Timers are an explicit queue plus the one handle the
  component keeps, so "at most one timer is pending" is proved rather than
  assumed.
- **Voices** (`Voices`). The table of nine popular text-to-speech voices,
  the name lookup with its `'Unknown Voice'` fallback, and the default voice
  id.
- `Text` holds the JavaScript string primitives the matchers use
  (`toLowerCase`, `trim`, `includes`) and the first-match scan they are
  built on. `TherapistQa` names the canned therapist answers that both
  responders quote. Their texts live in `app/lib/ann-therapist-qa.ts`, which
  is not part of this model, so each answer is a distinct key.

Every ordered `if` chain is modelled the same way. `Classify` returns the
first branch in source order whose guard holds, and its contract says
exactly that. `ClassifyIs` is the converse. The shadowing lemmas are built
from these two.

## Behaviour the model follows

- Blank input to the knowledge base yields "I'm Mariem.", not the default answer (see KnowledgeBase.BlankQuestionAnswersName).
- The conversation memory grows without bound: nothing caps or evicts its histories.
- Moods are fixed per branch; nothing derives a mood from the answer text.

## Model

| member | source | states |
|---|---|---|
| Text.Lower | app/lib/mariem-knowledge-base.ts:159 | `toLowerCase`: same length, each character mapped by `LowerChar`, which lowers exactly the ASCII capitals and fixes every other character |
| Text.Contains | app/lib/mariem-knowledge-base.ts:164 | none; `includes` is characterised by Text.ContainsAt and Text.ContainsWitness |
| Text.ContainsAt | app/lib/mariem-knowledge-base.ts:164 | a window of the string equal to the searched text makes `includes` true |
| Text.ContainsWitness | app/lib/mariem-knowledge-base.ts:164 | every true `includes` has such a window as witness, so `includes` holds exactly when a window matches |
| Text.Trim | app/lib/mariem-knowledge-base.ts:159 | none; `trim` is characterised by Text.LeadingSpaces, Text.TrailingSpaces, Text.TrimShape and Text.TrimEmptyIffBlank |
| Text.TrimShape | app/lib/mariem-knowledge-base.ts:159 | the trimmed string is a contiguous window of the input with no white space at either end |
| Text.LeadingSpaces | app/lib/mariem-knowledge-base.ts:159 | the white space that `trim()` drops from the front: every counted character is white space, and the first character kept is not |
| Text.TrailingSpaces | app/lib/mariem-knowledge-base.ts:159 | the white space that `trim()` drops from the back: every counted character is white space, and the last character kept is not |
| Text.NormalizeIdempotent | app/lib/mariem-knowledge-base.ts:159 | lower-casing then trimming is idempotent: normalising a normalised question changes nothing |
| Text.TrimEmptyIffBlank | components/AvatarSession/ThreeDAvatar.tsx:642 | `trim()` yields the empty string exactly when the input is all white space |
| KnowledgeBase.Resolve | app/lib/mariem-knowledge-base.ts:158-182 | a keyword resolution names the earliest entry with a keyword hit; otherwise no entry has one. A question resolution names the earliest entry with a partial match. "No match" holds exactly when no entry hits in either phase |
| KnowledgeBase.FindBestReply | app/lib/mariem-knowledge-base.ts:158-182 | total: the reply is an answer of some knowledge-base entry or the default; the default comes exactly when neither phase finds anything |
| KnowledgeBase.FindBestAnswer | app/lib/mariem-knowledge-base.ts:158-182 | none; it returns the words of KnowledgeBase.FindBestReply, whose contract says which reply is picked |
| KnowledgeBase.NormalizedQuestionSameAnswer | app/lib/mariem-knowledge-base.ts:159-164 | case and surrounding white space do not matter: the answer to `trim(lower(s))` is the answer to `s` |
| KnowledgeBase.EarlierKeywordEntryWins | app/lib/mariem-knowledge-base.ts:162-169 | if entry i has a keyword hit, the keyword phase answers with entry i or an earlier one; a later entry never wins |
| KnowledgeBase.FirstKeywordEntryAnswers | app/lib/mariem-knowledge-base.ts:162-169 | the earliest entry with a keyword hit is the one answered |
| KnowledgeBase.BlankQuestionAnswersName | app/lib/mariem-knowledge-base.ts:172-176 | empty or white-space-only input hits no keyword, but the first entry's question contains the empty string, so the answer is "I'm Mariem." and not the default |
| KnowledgeBase.NameAnswerText | app/lib/mariem-knowledge-base.ts:15 | the name entry's answer is "I'm Mariem." |
| KnowledgeBase.NameQuestionAnswersName | app/lib/mariem-knowledge-base.ts:14-17 | "What's your name?" resolves to the name entry |
| KnowledgeBase.WorseNeverReachesTriggers | app/lib/mariem-knowledge-base.ts:153 | "worse" is a keyword of both the progression entry (line 57) and the triggers entry (line 153), so a question containing it is answered by the progression entry or an earlier one, never by triggers |
| KnowledgeBase.WorseAloneAnswersProgression | app/lib/mariem-knowledge-base.ts:57 | a question containing "worse" and no keyword of the six earlier entries gets the progression answer |
| KnowledgeBase.QuestionsByCategory | app/lib/mariem-knowledge-base.ts:185-187 | the result is exactly the entries of the category, in original order: a subsequence of the knowledge base in which every entry has that category with its original multiplicity |
| KnowledgeBase.FirstOccurrences | app/lib/mariem-knowledge-base.ts:191 | the reference deduplication: no duplicates, and the same elements as the input |
| KnowledgeBase.Dedup | app/lib/mariem-knowledge-base.ts:191 | `Array.from(new Set(xs))`, a loop with a seen set, equals the reference first-occurrence deduplication |
| KnowledgeBase.Categories | app/lib/mariem-knowledge-base.ts:190-192 | each category is listed once, in first-occurrence order; every entry's category is listed and nothing else is |
| ConversationAi.Classify | components/logic/useConversationAI.ts:52-389 | the branch taken has a guard that holds, and no earlier branch's guard holds |
| ConversationAi.ClassifyIs | components/logic/useConversationAI.ts:52-389 | the converse: a firing branch with no earlier firing branch is the one taken |
| ConversationAi.ClearMemory | components/logic/useConversationAI.ts:398-407 | the reset memory has three empty histories, mood anxious and no shared symptoms |
| ConversationAi.Step | components/logic/useConversationAI.ts:41-389 | one call appends the raw message and the reply to the histories, extends the topics by one, leaves the mood alone, never sets the shared-symptoms flag, and always animates |
| ConversationAi.RunFromClear | components/logic/useConversationAI.ts:46-61 | after a reset the three histories stay the same length, one entry per call, and the memory's mood stays anxious |
| ConversationAi.RunStoresRawMessages | components/logic/useConversationAI.ts:46-50 | the stored user messages are the raw messages as typed, in call order |
| ConversationAi.StepFollowsBranch | components/logic/useConversationAI.ts:52-389 | the topic, reply, mood and animation of a call are those of the branch its normalised message takes; only the greeting clears the shared-symptoms flag |
| ConversationAi.SameNormalFormSameReply | components/logic/useConversationAI.ts:42-50 | two messages with the same normal form get the same reply and topic, while the memory keeps each message as typed |
| ConversationAi.GreetingFirst | components/logic/useConversationAI.ts:53-68 | any message containing "hi", "hello" or "hey" gets "Hi doctor.", mood anxious, topic greeting, and drops the shared-symptoms flag |
| ConversationAi.WhichIsAGreeting | components/logic/useConversationAI.ts:53 | the greeting test is a bare substring test, so "which?" is a greeting |
| ConversationAi.SleepShadowedByImpact | components/logic/useConversationAI.ts:234-270 | "sleep" never reaches the sleep branch (line 270); with no earlier branch firing it gets the topic `impact_on_life` (line 234) |
| ConversationAi.TreatmentNeverRelief | components/logic/useConversationAI.ts:144-324 | "treatment" never reaches the diagnosis branch (line 324); with no earlier branch firing it gets the topic `treatment_concerns` |
| ConversationAi.WhenNeverGeneral | components/logic/useConversationAI.ts:90-342 | "when" never reaches the general-question branch or the default; with no earlier branch firing it gets the topic `symptom_details` |
| ConversationAi.Fallbacks | components/logic/useConversationAI.ts:342-389 | with no specific branch firing, a question word gets one of the four general lines (topic `general_concern`) and anything else one of the six defaults (topic `general_patient_concern`); the mood is worried in both |
| ConversationAi.CatchAllBranch | components/logic/useConversationAI.ts:342-376 | with no specific branch firing, the general-question branch is taken exactly when one of its question words occurs, and the default otherwise |
| ConversationAi.GeneralLinesReachable | components/logic/useConversationAI.ts:343-350 | every one of the four general lines is the reply for some random draw |
| ConversationAi.DefaultLinesReachable | components/logic/useConversationAI.ts:367-376 | every one of the six default lines is the reply for some random draw |
| ConversationAi.OnlyClothingEmbarrassed | components/logic/useConversationAI.ts:288-304 | the clothing branch is the only one whose mood, embarrassed, lies outside the memory's mood type |
| Patient.Classify | components/AvatarSession/ThreeDAvatar.tsx:399-616 | the branch taken has a guard that holds and no earlier guard holds; no branch is taken exactly when no guard holds |
| Patient.ClassifyIs | components/AvatarSession/ThreeDAvatar.tsx:399-616 | the converse: a firing branch with no earlier firing branch is the one taken |
| Patient.Respond | components/AvatarSession/ThreeDAvatar.tsx:399-616 | the asked flag becomes true exactly when a story branch is taken, and stays true once set; with no branch taken the state is unchanged and the reply is the clarification line before the problem is asked about and the fallback line after |
| Patient.NameComesFirst | components/AvatarSession/ThreeDAvatar.tsx:400-406 | any input containing "name" or "call" gets the name line and leaves the state alone, whatever else it says |
| Patient.AgeComesNext | components/AvatarSession/ThreeDAvatar.tsx:403-409 | without "name" or "call", "age" or "old" gets the age line |
| Patient.FamilyAllergyUnreachable | components/AvatarSession/ThreeDAvatar.tsx:415-438 | the family-history answer (line 436) is never given: its test needs "family", which the relatives branch (line 415) catches first |
| Patient.VisitHopeUnreachable | components/AvatarSession/ThreeDAvatar.tsx:452-478 | the hope-for-relief answer (line 476) is never given: its test needs "hope", which the relief branch (line 452) catches first |
| Patient.SleepShadowedByImpact | components/AvatarSession/ThreeDAvatar.tsx:546-552 | an input containing "sleep" always gets a reply, never the sleep line |
| Patient.TreatmentNeverDiagnosis | components/AvatarSession/ThreeDAvatar.tsx:559-572 | an input containing "treatment" never reaches the diagnosis branch |
| Patient.GreetingByAsked | components/AvatarSession/ThreeDAvatar.tsx:593-599 | the greeting reply is the first-visit hello before the problem has been asked about and the short hello after; it changes no state |
| Patient.AskedIsMonotone | components/AvatarSession/ThreeDAvatar.tsx:481-503 | once the problem has been asked about, it stays asked |
| Patient.PhaseAndMoodChanges | components/AvatarSession/ThreeDAvatar.tsx:481-580 | the story branches set sharing and worried, diagnosis sets questioning and hopeful, advice sets relieved and relieved; every other input leaves phase and mood unchanged |
| Patient.ConversationStaysAttainable | components/AvatarSession/ThreeDAvatar.tsx:394-580 | from the initial state no conversation ever enters the waiting phase or a frustrated or neutral mood, and the sharing phase implies the problem was asked about |
| Patient.HandleInput | components/AvatarSession/ThreeDAvatar.tsx:641-647 | none; see Patient.HandleInputIgnoresBlank |
| Patient.HandleInputIgnoresBlank | components/AvatarSession/ThreeDAvatar.tsx:641-647 | white-space-only input changes nothing; any other input is answered, untrimmed, and the input box is emptied |
| Patient.StatusLabel | components/AvatarSession/ThreeDAvatar.tsx:619-627 | none; see Patient.LabelsAreDistinct |
| Patient.PhaseLabel | components/AvatarSession/ThreeDAvatar.tsx:629-638 | none; see Patient.LabelsAreDistinct |
| Patient.LabelsAreDistinct | components/AvatarSession/ThreeDAvatar.tsx:619-638 | distinct moods get distinct status labels and distinct phases get distinct phase labels |
| Talking.OnEdge | components/AvatarSession/ThreeDAvatar.tsx:97-137 | none; see Talking.RisingEdge and Talking.FallingEdge |
| Talking.Callback | components/AvatarSession/ThreeDAvatar.tsx:110-128 | none; see Talking.LongBurstReleases and Talking.ShortBurstSticks |
| Talking.Step | components/AvatarSession/ThreeDAvatar.tsx:97-137 | none; see Talking.StepKeepsWf and Talking.AtMostOneTimer |
| Talking.StepKeepsWf | components/AvatarSession/ThreeDAvatar.tsx:97-137 | every edge or firing keeps at most one timer pending, named by the kept handle |
| Talking.RisingEdge | components/AvatarSession/ThreeDAvatar.tsx:100-114 | a rise raises the flag, records the time, cancels the pending timer and leaves exactly a new 5000 ms hold timer |
| Talking.FallingEdge | components/AvatarSession/ThreeDAvatar.tsx:116-130 | a fall keeps the flag and time, cancels the pending timer and leaves exactly a new 3000 ms release timer that remembers the edge time |
| Talking.AtMostOneTimer | components/AvatarSession/ThreeDAvatar.tsx:97-136 | over any sequence of edges and firings, at most one timer is pending, and the kept handle names it |
| Talking.ShortBurstSticks | components/AvatarSession/ThreeDAvatar.tsx:116-130 | as written: after a burst of at most 3000 ms, no sequence of timer firings ever clears the flag |
| Talking.LongBurstReleases | components/AvatarSession/ThreeDAvatar.tsx:116-130 | after a burst longer than 3000 ms, the release timer clears the flag once its deadline is reached |
| Talking.StuckAfterShortBurst | components/AvatarSession/ThreeDAvatar.tsx:116-130 | as written: a rise at 0 ms, a fall at 1000 ms and the release firing at 4000 ms leave the flag up with no timer left to clear it |
| Talking.ShouldTalk | components/AvatarSession/ThreeDAvatar.tsx:223 | none; see Talking.SignalOpensGate |
| Talking.SignalOpensGate | components/AvatarSession/ThreeDAvatar.tsx:223 | in every state, the mouth moves whenever the raw signal is up |
| Talking.HoldAfterRise | components/AvatarSession/ThreeDAvatar.tsx:100-114 | while the signal stays up after a rise, the mouth keeps moving, but the flag drops when the 5000 ms hold timer fires, with no falling edge |
| Talking.IntendedNeverStuck | components/AvatarSession/ThreeDAvatar.tsx:116-130 | corrected release: whenever the flag is up, a timer that will clear it is pending |
| Talking.IntendedReleasesShortBurst | components/AvatarSession/ThreeDAvatar.tsx:116-130 | corrected release: the short burst that sticks as written ends with the flag down |
| Voices.DefaultVoiceId | app/lib/elevenlabs-config.ts:7 | a non-empty environment override is the default voice; an absent or empty one selects the first popular voice, Rachel |
| Voices.IdsDistinct | app/lib/elevenlabs-config.ts:26-36 | the nine popular voice ids are pairwise distinct, so the name table is well defined |
| Voices.VoiceName | app/lib/elevenlabs-config.ts:39-53 | the name is never empty; Voices.ListedNames and Voices.UnlistedIsUnknown say which name |
| Voices.ListedNames | app/lib/elevenlabs-config.ts:39-50 | each popular id is named as listed |
| Voices.UnlistedIsUnknown | app/lib/elevenlabs-config.ts:39-53 | the lookup answers "Unknown Voice" exactly for the ids not in the table |
| Voices.DefaultIsRachel | app/lib/elevenlabs-config.ts:7 | with no override, the default voice is named "Rachel" |

## Left out

- Rendering: GLTF loading, centring and scaling, mesh and bone traversal, morph targets, lights and camera. These are calls into Three.js and React Three Fiber.
- The mouth amplitude: the sine-based opening and the ×0.95 decay are floating-point animation. Only the boolean gate that switches it on is modelled.
- `Math.random`: the random draw is a natural-number parameter `pick`, and `Math.floor(Math.random() * n)` is modelled as `pick % n`. That takes every value below `n` and nothing else.
- The answer texts of the therapist question table: their file, `app/lib/ann-therapist-qa.ts`, is not part of this model, so each answer is a distinct key.
- React semantics: the queued functional `setState` updates of one call are applied as one sequential transition. Effect cleanup on unmount is not modelled; the cleanup between two runs is the cancel before arming. `onContinuousTalkingChange` notifications are not modelled; the parent passes its own stable setter.
- Clocks: `Date.now()` and `new Date()` are integer parameters, in milliseconds.
- `process.env`: the voice override is an optional string parameter.
- Text.Lower: lowers only the ASCII capitals. JavaScript's `toLowerCase` also lowers every other cased letter, and two of them become ASCII: U+0130 (İ) becomes "i" followed by a combining dot, and the Kelvin sign U+212A becomes "k". So the raw message "Hİ" contains "hi" after lower-casing in the hook (useConversationAI.ts line 53) and gets "Hi doctor.", while in the model it normalises to "h" followed by U+0130, fires no guard and takes the default branch. Full Unicode case mapping is not modelled.
- `getVoiceName` on ids that are `Object.prototype` keys (such as `"constructor"`): the model's table is a plain map, so these also fall back to "Unknown Voice".
- The emoji prefixes of the status labels: labels are modelled by their words. The phase label's `default` case ("Thinking") is unreachable because the phase type is closed; the status label's `default` is reached only for the neutral mood and is modelled as that mood's label.
- `console.log` tracing in the resolver.
- `getConversationHistory`: it returns the memory unchanged.
- Speech synthesis, audio playback and the other components (cards, toggles, test pages): network and UI code outside the dialogue core.

## Findings

| source | as written | input that shows it | evidently intended | confidence | as-written member | corrected member |
|---|---|---|---|---|---|---|
| components/AvatarSession/ThreeDAvatar.tsx:116-130 | the release timer tests `now - lastTalkingTimeRef.current > 3000`. `now` is the time of the falling edge, captured when the effect ran, and `lastTalkingTimeRef` holds the time of the last rise. So the test measures how long the burst lasted, not how long it has been quiet | rise at 0 ms, fall at 1000 ms, release timer fires at 4000 ms: the flag stays true and no timer is left to clear it, so the mouth keeps moving until the next rise | clear the flag once the speaker has been quiet for 3 s after a fall | not executed; medium | Talking.StuckAfterShortBurst | Talking.IntendedNeverStuck |
