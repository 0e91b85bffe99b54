/**
 * The patient character's own responder: an ordered first-match chain of
 * substring tests over the lower-cased doctor input (`mariemRespond`), the
 * conversation state three of its branches move, the input handler that
 * feeds it, and the two status labels shown beside it.
 */
module Patient {
  import opened Text
  import opened TherapistQa

  /** A branch condition: one of `words` occurs, or `lead` occurs together
      with one of `partners`.  Every condition of the chain has this shape. */
  datatype Guard = Guard(words: seq<string>, lead: string, partners: seq<string>)

  function AnyOf(words: seq<string>): Guard {
    Guard(words, "", [])
  }

  function Pair(lead: string, partners: seq<string>): Guard {
    Guard([], lead, partners)
  }

  predicate Holds(g: Guard, m: string) {
    ContainsAny(m, g.words) || (Contains(m, g.lead) && ContainsAny(m, g.partners))
  }

  /** The branches of the chain that test the input, named after what the
      doctor asks about. */
  datatype Branch =
    | Name
    | Age
    | Residence
    | Relatives
    | Occupation
    | ConsultationStart
    | SymptomDetail
    | OnsetMonths
    | FamilyAllergy
    | PriorEpisode
    | TreatmentOptions
    | Outlook
    | ReliefWords
    | TriedSoFar
    | DailyImpact
    | Emotions
    | NightSleep
    | Clothing
    | VisitHope
    | WhatProblem
    | TellMore
    | WhatHappened
    | Symptoms
    | Itch
    | Redness
    | Timeline
    | Trend
    | FamilyMatters
    | Allergy
    | Triggers
    | Stress
    | Impact
    | Sleep
    | Embarrassment
    | Remedies
    | Help
    | Diagnosis
    | Advice
    | Future
    | Prevention
    | Greeting
    | HowAreYou
    | Thanks

  function GuardOf(b: Branch): Guard {
    match b
    case Name => AnyOf(["name", "call"])
    case Age => AnyOf(["age", "old"])
    case Residence => Pair("where", ["live"])
    case Relatives => AnyOf(["family", "children", "husband"])
    case Occupation => AnyOf(["work", "job", "profession"])
    case ConsultationStart => Pair("start", ["consultation", "begin"])
    case SymptomDetail => Pair("symptom", ["detail", "describe"])
    case OnsetMonths => Pair("start", ["month", "ago"])
    case FamilyAllergy => Pair("family", ["asthma", "allergy"])
    case PriorEpisode => Pair("before", ["similar", "previous"])
    case TreatmentOptions => Pair("treatment", ["concern", "option"])
    case Outlook => AnyOf(["long term", "permanent", "forever"])
    case ReliefWords => AnyOf(["relief", "better", "hope"])
    case TriedSoFar => Pair("try", ["so far", "attempt"])
    case DailyImpact => Pair("affect", ["daily", "life"])
    case Emotions => Guard(["emotional"], "feel", ["emotion"])
    case NightSleep => Pair("sleep", ["night", "wake"])
    case Clothing => AnyOf(["clothing", "clothes", "wear"])
    case VisitHope => Pair("hope", ["visit", "get"])
    case WhatProblem => Pair("what", ["problem", "issue", "wrong", "bother"])
    case TellMore => Pair("tell", ["more", "about"])
    case WhatHappened => Pair("what", ["happen"])
    case Symptoms => AnyOf(["symptom", "feel", "experience", "look"])
    case Itch => AnyOf(["itch", "pain", "hurt"])
    case Redness => AnyOf(["red", "color", "appearance"])
    case Timeline => AnyOf(["how long", "when", "start", "begin"])
    case Trend => AnyOf(["worse", "better", "improve"])
    case FamilyMatters => AnyOf(["family", "mother", "asthma", "history"])
    case Allergy => AnyOf(["allergy", "allergic"])
    case Triggers => AnyOf(["trigger", "worse", "avoid", "cause"])
    case Stress => AnyOf(["stress", "anxiety"])
    case Impact => AnyOf(["affect", "sleep", "daily", "work"])
    case Sleep => AnyOf(["sleep", "night"])
    case Embarrassment => AnyOf(["clothes", "wear", "embarrass"])
    case Remedies => AnyOf(["try", "cream", "medicine", "treatment"])
    case Help => AnyOf(["help", "cure", "fix"])
    case Diagnosis => AnyOf(["diagnosis", "condition", "treatment", "what is it"])
    case Advice => AnyOf(["advice", "recommend", "suggest", "should"])
    case Future => AnyOf(["future", "long term", "permanent"])
    case Prevention => AnyOf(["prevent", "avoid", "stop"])
    case Greeting => AnyOf(["hi", "hello", "greet", "good"])
    case HowAreYou => Pair("how", ["you"])
    case Thanks => AnyOf(["thank", "thanks"])
  }

  predicate Fires(b: Branch, m: string) {
    Holds(GuardOf(b), m)
  }

  const BranchCount: nat := 43

  /** The branch at each position of the chain; positions past the end
      repeat the last branch. */
  function BranchAt(k: nat): Branch {
    if k == 0 then Name
    else if k == 1 then Age
    else if k == 2 then Residence
    else if k == 3 then Relatives
    else if k == 4 then Occupation
    else if k == 5 then ConsultationStart
    else if k == 6 then SymptomDetail
    else if k == 7 then OnsetMonths
    else if k == 8 then FamilyAllergy
    else if k == 9 then PriorEpisode
    else if k == 10 then TreatmentOptions
    else if k == 11 then Outlook
    else if k == 12 then ReliefWords
    else if k == 13 then TriedSoFar
    else if k == 14 then DailyImpact
    else if k == 15 then Emotions
    else if k == 16 then NightSleep
    else if k == 17 then Clothing
    else if k == 18 then VisitHope
    else if k == 19 then WhatProblem
    else if k == 20 then TellMore
    else if k == 21 then WhatHappened
    else if k == 22 then Symptoms
    else if k == 23 then Itch
    else if k == 24 then Redness
    else if k == 25 then Timeline
    else if k == 26 then Trend
    else if k == 27 then FamilyMatters
    else if k == 28 then Allergy
    else if k == 29 then Triggers
    else if k == 30 then Stress
    else if k == 31 then Impact
    else if k == 32 then Sleep
    else if k == 33 then Embarrassment
    else if k == 34 then Remedies
    else if k == 35 then Help
    else if k == 36 then Diagnosis
    else if k == 37 then Advice
    else if k == 38 then Future
    else if k == 39 then Prevention
    else if k == 40 then Greeting
    else if k == 41 then HowAreYou
    else Thanks
  }

  /** The position of a branch in the chain; `BranchAt` is its inverse. */
  function Rank(b: Branch): (k: nat)
    ensures k < BranchCount && BranchAt(k) == b
  {
    match b
    case Name => 0
    case Age => 1
    case Residence => 2
    case Relatives => 3
    case Occupation => 4
    case ConsultationStart => 5
    case SymptomDetail => 6
    case OnsetMonths => 7
    case FamilyAllergy => 8
    case PriorEpisode => 9
    case TreatmentOptions => 10
    case Outlook => 11
    case ReliefWords => 12
    case TriedSoFar => 13
    case DailyImpact => 14
    case Emotions => 15
    case NightSleep => 16
    case Clothing => 17
    case VisitHope => 18
    case WhatProblem => 19
    case TellMore => 20
    case WhatHappened => 21
    case Symptoms => 22
    case Itch => 23
    case Redness => 24
    case Timeline => 25
    case Trend => 26
    case FamilyMatters => 27
    case Allergy => 28
    case Triggers => 29
    case Stress => 30
    case Impact => 31
    case Sleep => 32
    case Embarrassment => 33
    case Remedies => 34
    case Help => 35
    case Diagnosis => 36
    case Advice => 37
    case Future => 38
    case Prevention => 39
    case Greeting => 40
    case HowAreYou => 41
    case Thanks => 42
  }

  /** No position holds a branch of another rank, so no branch is listed
      twice. */
  lemma RankOfBranchAt(k: nat)
    requires k < BranchCount
    ensures Rank(BranchAt(k)) == k
  {
  }

  /** `b` is the branch the chain takes on `m`: its condition holds and no
      earlier one does. */
  predicate FirstFiring(m: string, b: Branch) {
    Fires(b, m) && forall c :: Rank(c) < Rank(b) ==> !Fires(c, m)
  }

  predicate NoneFires(m: string) {
    forall b :: !Fires(b, m)
  }

  lemma NoneFiresFromScan(m: string, p: nat -> bool)
    requires forall k: nat :: p(k) == Fires(BranchAt(k), m)
    requires forall j :: 0 <= j < BranchCount ==> !p(j)
    ensures NoneFires(m)
  {
    forall b
      ensures !Fires(b, m)
    {
      assert BranchAt(Rank(b)) == b;
      assert !p(Rank(b));
    }
  }

  lemma FirstFiringFromScan(m: string, p: nat -> bool, i: nat)
    requires forall k: nat :: p(k) == Fires(BranchAt(k), m)
    requires i < BranchCount && p(i)
    requires forall j :: 0 <= j < i ==> !p(j)
    ensures FirstFiring(m, BranchAt(i))
  {
    RankOfBranchAt(i);
    forall c | Rank(c) < i
      ensures !Fires(c, m)
    {
      assert BranchAt(Rank(c)) == c;
      assert !p(Rank(c));
    }
  }

  /** The branch the chain takes on a lower-cased input: one whose condition
      holds with no earlier condition holding, or none at all. */
  function Classify(m: string): (r: Option<Branch>)
    ensures r.Some? ==> FirstFiring(m, r.value)
    ensures r.None? ==> NoneFires(m)
  {
    var p := (k: nat) => Fires(BranchAt(k), m);
    match FirstIndex(p, 0, BranchCount)
    case Some(i) =>
      FirstFiringFromScan(m, p, i);
      Some(BranchAt(i))
    case None =>
      NoneFiresFromScan(m, p);
      None
  }

  /** The converse of `Classify`'s contract. */
  lemma ClassifyIs(m: string, b: Branch)
    requires Fires(b, m)
    requires forall c :: Rank(c) < Rank(b) ==> !Fires(c, m)
    ensures Classify(m) == Some(b)
  {
    var r := Classify(m);
    assert r.Some?;
    assert BranchAt(Rank(r.value)) == r.value;
  }

  /** A firing branch bounds the branch taken. */
  lemma FiringBounds(m: string, b: Branch)
    requires Fires(b, m)
    ensures Classify(m).Some? && Rank(Classify(m).value) <= Rank(b)
  {
  }

  /** The fixed lines the character speaks. */
  datatype Line =
    | NameLine
    | AgeLine
    | ResidenceLine
    | RelativesLine
    | OccupationLine
    | ProblemStory
    | MoreStory
    | HappenedStory
    | SymptomsLine
    | ItchLine
    | RednessLine
    | TimelineLine
    | TrendLine
    | FamilyHistoryLine
    | AllergyLine
    | TriggersLine
    | StressLine
    | ImpactLine
    | SleepLine
    | EmbarrassmentLine
    | RemediesLine
    | HelpLine
    | DiagnosisLine
    | AdviceLine
    | FutureLine
    | PreventionLine
    | FirstHello
    | LaterHello
    | HowAreYouLine
    | ThanksLine
    | Clarification
    | Fallback

  function Words(l: Line): string {
    match l
    case NameLine =>
      "My name is Mariem. I'm 45 years old and I live in the UAE with my family."
    case AgeLine =>
      "I'm 45 years old, doctor."
    case ResidenceLine =>
      "I live in the United Arab Emirates with my family."
    case RelativesLine =>
      "I have a family here in the UAE. My mother has asthma, and there's a family history of allergies."
    case OccupationLine =>
      "I work in an office, but this skin problem is making it difficult to focus sometimes because of the itching."
    case ProblemStory =>
      "Oh doctor, I'm really worried about my skin. I have this dry, itchy, red skin on my arms and neck that's been getting worse for months. The itching gets really bad, especially at night, and I can't sleep properly. I've tried moisturizing but it doesn't help much. I'm so frustrated and embarrassed by this."
    case MoreStory =>
      "Well, it started about a few months ago with just a little dry skin, but now it's much worse. My skin is very dry and itchy, and it gets red and inflamed. The worst part is the itching at night - it keeps me awake and I can't sleep properly. I also feel embarrassed to wear short sleeves because of how it looks. It's really affecting my daily life and work."
    case HappenedStory =>
      "It started gradually - just some dry patches on my arms. But over the past few months, it's gotten much worse. Now I have red, inflamed areas that itch constantly, especially at night. I've tried different moisturizers and creams, but nothing seems to help much. The itching is so bad sometimes that I can't concentrate on my work."
    case SymptomsLine =>
      "My skin is very dry and itchy, and it gets red and inflamed. The worst part is the itching at night - it keeps me awake. I also feel embarrassed to wear short sleeves because of how it looks. It's really affecting my daily life. The affected areas are mostly on my arms and neck."
    case ItchLine =>
      "Yes, the itching is really bad, especially at night. It's not exactly painful, but the constant itching is very uncomfortable and it keeps me awake. Sometimes I scratch without realizing it, and that makes it worse."
    case RednessLine =>
      "Yes, the affected areas are red and inflamed. They look dry and scaly, and sometimes they crack. It's very noticeable, which is why I feel embarrassed to wear short sleeves or show my arms."
    case TimelineLine =>
      "It started about a few months ago, and it's been getting progressively worse. At first it was just a little dry skin, but now it's really bad. I thought it would go away on its own, but it's just getting worse."
    case TrendLine =>
      "It's definitely getting worse, not better. When it first started, it was just small dry patches. But now the areas are larger, more red, and the itching is much more intense. I'm really worried it will keep getting worse."
    case FamilyHistoryLine =>
      "Yes, my mother has asthma, and there's a family history of allergies. Could that be related to my skin problem? I've never had skin issues before, but I do have some seasonal allergies."
    case AllergyLine =>
      "I do have some seasonal allergies, especially to pollen. But I've never had skin allergies before. Do you think this could be an allergic reaction to something?"
    case TriggersLine =>
      "I notice it gets worse when I'm stressed, and sometimes certain fabrics make it itch more. Temperature changes seem to affect it too. I've tried to avoid wool and synthetic fabrics, but it doesn't seem to make much difference."
    case StressLine =>
      "Yes, I think stress makes it worse. I've been under a lot of stress at work lately, and I notice the itching gets more intense during stressful periods. But I'm not sure if that's the cause or just makes it worse."
    case ImpactLine =>
      "It's really affecting my sleep because the itching gets so bad at night. I'm also embarrassed about how it looks, so I avoid wearing certain clothes. It's frustrating because it's interfering with my daily activities and work. I can't concentrate properly when I'm constantly itching."
    case SleepLine =>
      "The itching is worst at night, which makes it very hard to sleep. I wake up several times during the night because of the itching. I'm exhausted during the day, which affects my work and daily activities."
    case EmbarrassmentLine =>
      "Yes, I'm embarrassed about how it looks, so I avoid wearing short sleeves or anything that shows my arms. I have to be careful about what fabrics I wear because some make the itching worse. It's affecting my confidence and how I dress."
    case RemediesLine =>
      "I've tried several moisturizers and over-the-counter creams, but nothing seems to help much. I've also tried some natural remedies like aloe vera and coconut oil, but they don't seem to make a difference. I'm really hoping you can help me find something that works."
    case HelpLine =>
      "I really hope you can help me, doctor. This is really affecting my quality of life. I'm willing to try anything that might help. Do you think this is something that can be cured, or will I have to live with it?"
    case DiagnosisLine =>
      "Oh, that makes me feel better to understand what's happening. But I have some questions - is this something serious? How long will it take to get better? And what can I do at home to help?"
    case AdviceLine =>
      "Thank you for explaining that, doctor. I feel much better now. I'll follow your advice and I hope this helps. Will this condition come back, or can we prevent it from happening again?"
    case FutureLine =>
      "I'm really worried about whether this is permanent or if it will keep getting worse. I hope it's something that can be treated and won't affect me for the rest of my life."
    case PreventionLine =>
      "I want to know what I can do to prevent this from getting worse or coming back. I'm willing to make any lifestyle changes if it will help."
    case FirstHello =>
      "Hello doctor. I'm Mariem. I'm here because I'm having some skin problems that are really worrying me."
    case LaterHello =>
      "Hello doctor. Thank you for seeing me today."
    case HowAreYouLine =>
      "I'm okay, but I'm really worried about my skin condition. It's been affecting my sleep and daily life. I'm hoping you can help me figure out what's going on."
    case ThanksLine =>
      "You're welcome, doctor. I really appreciate you taking the time to help me with this."
    case Clarification =>
      "I'm not sure I understand your question, doctor. Could you explain what you'd like to know about my skin problem? I'm here to get help and I want to make sure I understand everything."
    case Fallback =>
      "I'm not sure I understand. Could you explain that in simpler terms? I'm really concerned about my skin and want to make sure I understand everything. I'm here to get help and I want to be completely honest about my symptoms."
  }

  /** A reply: one of the character's lines, or an answer of the therapist
      table. */
  datatype Reply = Say(line: Line) | Quote(key: QaKey)

  /** The reply of each branch; only the greeting depends on the state. */
  function ReplyOf(b: Branch, asked: bool): Reply {
    match b
    case Name => Say(NameLine)
    case Age => Say(AgeLine)
    case Residence => Say(ResidenceLine)
    case Relatives => Say(RelativesLine)
    case Occupation => Say(OccupationLine)
    case ConsultationStart => Quote(InitialGreeting)
    case SymptomDetail => Quote(SymptomDescription)
    case OnsetMonths => Quote(SymptomProgression)
    case FamilyAllergy => Quote(FamilyHistory)
    case PriorEpisode => Quote(PreviousExperience)
    case TreatmentOptions => Quote(TreatmentConcerns)
    case Outlook => Quote(LongTermOutlook)
    case ReliefWords => Quote(ReliefExpression)
    case TriedSoFar => Quote(TreatmentAttempts)
    case DailyImpact => Quote(ImpactOnLife)
    case Emotions => Quote(EmotionalImpact)
    case NightSleep => Quote(SleepIssues)
    case Clothing => Quote(ClothingConcerns)
    case VisitHope => Quote(HopeForRelief)
    case WhatProblem => Say(ProblemStory)
    case TellMore => Say(MoreStory)
    case WhatHappened => Say(HappenedStory)
    case Symptoms => Say(SymptomsLine)
    case Itch => Say(ItchLine)
    case Redness => Say(RednessLine)
    case Timeline => Say(TimelineLine)
    case Trend => Say(TrendLine)
    case FamilyMatters => Say(FamilyHistoryLine)
    case Allergy => Say(AllergyLine)
    case Triggers => Say(TriggersLine)
    case Stress => Say(StressLine)
    case Impact => Say(ImpactLine)
    case Sleep => Say(SleepLine)
    case Embarrassment => Say(EmbarrassmentLine)
    case Remedies => Say(RemediesLine)
    case Help => Say(HelpLine)
    case Diagnosis => Say(DiagnosisLine)
    case Advice => Say(AdviceLine)
    case Future => Say(FutureLine)
    case Prevention => Say(PreventionLine)
    case HowAreYou => Say(HowAreYouLine)
    case Thanks => Say(ThanksLine)
    case Greeting => if asked then Say(LaterHello) else Say(FirstHello)
  }

  datatype Phase = GreetingPhase | WaitingPhase | SharingPhase | QuestioningPhase | RelievedPhase

  datatype Emotion = Worried | Frustrated | Hopeful | Relieved | Neutral

  /** What the character remembers between inputs: whether the doctor has
      asked about the problem yet, the conversation phase and her mood. */
  datatype PatientState = PatientState(asked: bool, phase: Phase, emotion: Emotion)

  const InitialState: PatientState := PatientState(false, GreetingPhase, Worried)

  /** The three branches in which the character tells her story. */
  predicate Shares(b: Branch) {
    b == WhatProblem || b == TellMore || b == WhatHappened
  }

  /** The state change a branch makes; every other branch changes nothing. */
  function Effect(s: PatientState, b: Branch): PatientState {
    if Shares(b) then PatientState(true, SharingPhase, Worried)
    else if b == Diagnosis then s.(phase := QuestioningPhase, emotion := Hopeful)
    else if b == Advice then s.(phase := RelievedPhase, emotion := Relieved)
    else s
  }

  datatype Outcome = Outcome(state: PatientState, reply: Reply)

  /** `mariemRespond(input)`: lower-cases the input, without trimming it,
      and follows the chain; with no branch firing it asks for clarification
      until the problem has been asked about, and falls back to a fixed line
      after that. */
  function Respond(s: PatientState, input: string): (o: Outcome)
    ensures o.state.asked == (s.asked || (Classify(Lower(input)).Some? && Shares(Classify(Lower(input)).value)))
    ensures Classify(Lower(input)).None? ==>
      o.state == s && o.reply == (if s.asked then Say(Fallback) else Say(Clarification))
  {
    match Classify(Lower(input))
    case Some(b) => Outcome(Effect(s, b), ReplyOf(b, s.asked))
    case None => Outcome(s, if s.asked then Say(Fallback) else Say(Clarification))
  }

  /** The personal facts come first: an input mentioning "name" or "call"
      gets the name line whatever else it says, and leaves the state alone. */
  lemma NameComesFirst(s: PatientState, input: string)
    requires Contains(Lower(input), "name") || Contains(Lower(input), "call")
    ensures Respond(s, input) == Outcome(s, Say(NameLine))
  {
    var m := Lower(input);
    assert Fires(Name, m) by {
      if Contains(m, "name") {
        assert GuardOf(Name).words[0] == "name";
      } else {
        assert GuardOf(Name).words[1] == "call";
      }
    }
    ClassifyIs(m, Name);
  }

  /** Age comes next: with no name question, "age" or "old" gets the age
      line. */
  lemma AgeComesNext(s: PatientState, input: string)
    requires !Contains(Lower(input), "name") && !Contains(Lower(input), "call")
    requires Contains(Lower(input), "age") || Contains(Lower(input), "old")
    ensures Respond(s, input) == Outcome(s, Say(AgeLine))
  {
    var m := Lower(input);
    assert GuardOf(Name).words == ["name", "call"];
    assert Fires(Age, m) by {
      if Contains(m, "age") {
        assert GuardOf(Age).words[0] == "age";
      } else {
        assert GuardOf(Age).words[1] == "old";
      }
    }
    forall c | Rank(c) < Rank(Age)
      ensures !Fires(c, m)
    {
      assert c == Name;
    }
    ClassifyIs(m, Age);
  }

  /** The family-history answer of the therapist table is never given: any
      input that passes its test contains "family", which the relatives
      branch catches first. */
  lemma FamilyAllergyUnreachable(m: string)
    ensures Classify(m) != Some(FamilyAllergy)
  {
    if Fires(FamilyAllergy, m) {
      assert Contains(m, "family");
      assert GuardOf(Relatives).words[0] == "family";
      FiringBounds(m, Relatives);
    }
  }

  /** A branch one of whose words occurs fires. */
  lemma FiresOnWord(b: Branch, m: string, k: nat)
    requires k < |GuardOf(b).words| && Contains(m, GuardOf(b).words[k])
    ensures Fires(b, m)
  {
  }

  /** A firing branch shadows every later one. */
  lemma Shadows(m: string, earlier: Branch, later: Branch)
    requires Fires(earlier, m) && Rank(earlier) < Rank(later)
    ensures Classify(m).Some? && Classify(m).value != later
  {
    FiringBounds(m, earlier);
  }

  /** The hope-for-relief answer is never given: its test needs "hope",
      which the relief branch catches first. */
  lemma VisitHopeUnreachable(m: string)
    ensures Classify(m) != Some(VisitHope)
  {
    if Fires(VisitHope, m) {
      assert Contains(m, "hope");
      assert GuardOf(ReliefWords).words[2] == "hope";
      assert Fires(ReliefWords, m);
      FiringBounds(m, ReliefWords);
    }
  }

  /** An input mentioning "sleep" never reaches the sleep line; the impact
      branch or an earlier one catches it. */
  lemma SleepShadowedByImpact(m: string)
    requires Contains(m, "sleep")
    ensures Classify(m).Some? && Classify(m).value != Sleep
  {
    assert GuardOf(Impact).words[1] == "sleep";
    FiresOnWord(Impact, m, 1);
    Shadows(m, Impact, Sleep);
  }

  /** "treatment" never reaches the diagnosis branch; the remedies branch
      or an earlier one catches it. */
  lemma TreatmentNeverDiagnosis(m: string)
    requires Contains(m, "treatment")
    ensures Classify(m).Some? && Classify(m).value != Diagnosis
  {
    assert GuardOf(Remedies).words[3] == "treatment";
    FiresOnWord(Remedies, m, 3);
    Shadows(m, Remedies, Diagnosis);
  }

  /** The greeting line depends on whether the problem has been asked about. */
  lemma GreetingByAsked(s: PatientState, input: string)
    requires Classify(Lower(input)) == Some(Greeting)
    ensures Respond(s, input).reply == (if s.asked then Say(LaterHello) else Say(FirstHello))
    ensures Respond(s, input).state == s
  {
    GreetingEffect(s);
  }

  lemma GreetingEffect(s: PatientState)
    ensures Effect(s, Greeting) == s
    ensures ReplyOf(Greeting, s.asked) == (if s.asked then Say(LaterHello) else Say(FirstHello))
  {
  }

  /** Once asked, always asked. */
  lemma AskedIsMonotone(s: PatientState, input: string)
    requires s.asked
    ensures Respond(s, input).state.asked
  {
  }

  /** Phase and mood change in three places only: the story branches set
      sharing and worried, the diagnosis branch questioning and hopeful, the
      advice branch relieved and relieved. */
  lemma PhaseAndMoodChanges(s: PatientState, input: string)
    ensures var o := Respond(s, input);
      var r := Classify(Lower(input));
      && (r.Some? && Shares(r.value) ==> o.state.phase == SharingPhase && o.state.emotion == Worried)
      && (r == Some(Diagnosis) ==> o.state.phase == QuestioningPhase && o.state.emotion == Hopeful)
      && (r == Some(Advice) ==> o.state.phase == RelievedPhase && o.state.emotion == Relieved)
      && (!(r.Some? && (Shares(r.value) || r.value == Diagnosis || r.value == Advice)) ==>
            o.state.phase == s.phase && o.state.emotion == s.emotion)
  {
    match Classify(Lower(input))
    case Some(b) => EffectChanges(s, b);
    case None =>
  }

  lemma EffectChanges(s: PatientState, b: Branch)
    ensures Shares(b) ==> Effect(s, b).phase == SharingPhase && Effect(s, b).emotion == Worried
    ensures b == Diagnosis ==> Effect(s, b).phase == QuestioningPhase && Effect(s, b).emotion == Hopeful
    ensures b == Advice ==> Effect(s, b).phase == RelievedPhase && Effect(s, b).emotion == Relieved
    ensures !(Shares(b) || b == Diagnosis || b == Advice) ==> Effect(s, b).phase == s.phase && Effect(s, b).emotion == s.emotion
  {
  }

  /** Inputs applied in order from a state. */
  function Converse(s: PatientState, inputs: seq<string>): PatientState
    decreases |inputs|
  {
    if |inputs| == 0 then s
    else Respond(Converse(s, inputs[..|inputs| - 1]), inputs[|inputs| - 1]).state
  }

  /** The states a conversation can be in: the waiting phase is never
      entered, the mood is never frustrated or neutral, and the phase is
      the opening one only before anything has moved it. */
  predicate Attainable(s: PatientState) {
    && s.phase != WaitingPhase
    && s.emotion in {Worried, Hopeful, Relieved}
    && (s.phase == GreetingPhase ==> s.emotion == Worried && !s.asked)
    && (s.phase == SharingPhase ==> s.asked)
  }

  lemma EffectKeepsAttainable(s: PatientState, b: Branch)
    requires Attainable(s)
    ensures Attainable(Effect(s, b))
  {
  }

  lemma RespondKeepsAttainable(s: PatientState, input: string)
    requires Attainable(s)
    ensures Attainable(Respond(s, input).state)
  {
    match Classify(Lower(input))
    case Some(b) => EffectKeepsAttainable(s, b);
    case None =>
  }

  lemma {:induction false} ConversationStaysAttainable(inputs: seq<string>)
    ensures Attainable(Converse(InitialState, inputs))
    ensures Converse(InitialState, inputs).phase != WaitingPhase
    decreases |inputs|
  {
    if |inputs| > 0 {
      var init := inputs[..|inputs| - 1];
      ConversationStaysAttainable(init);
      RespondKeepsAttainable(Converse(InitialState, init), inputs[|inputs| - 1]);
    }
  }

  /** The input panel: the text being typed, and the last reply shown (none
      before the first). */
  datatype Panel = Panel(patient: PatientState, input: string, shown: Option<Reply>)

  /** `handleDoctorInput`: an input that trims to nothing is ignored;
      anything else is answered, untrimmed, and the input box is emptied. */
  function HandleInput(p: Panel): Panel {
    if Trim(p.input) != "" then
      var o := Respond(p.patient, p.input);
      Panel(o.state, "", Some(o.reply))
    else p
  }

  /** White space alone changes nothing, neither the character nor the
      panel; any other input is answered and cleared. */
  lemma HandleInputIgnoresBlank(p: Panel)
    ensures IsBlank(p.input) ==> HandleInput(p) == p
    ensures !IsBlank(p.input) ==>
      && HandleInput(p).input == ""
      && HandleInput(p).shown == Some(Respond(p.patient, p.input).reply)
      && HandleInput(p).patient == Respond(p.patient, p.input).state
  {
    TrimEmptyIffBlank(p.input);
  }

  /** The status label of a mood, without its emoji. */
  function StatusLabel(e: Emotion): string {
    match e
    case Worried => "Worried"
    case Frustrated => "Frustrated"
    case Hopeful => "Hopeful"
    case Relieved => "Relieved"
    case Neutral => "Neutral"
  }

  /** The label of a phase, without its emoji. */
  function PhaseLabel(p: Phase): string {
    match p
    case GreetingPhase => "Greeting"
    case WaitingPhase => "Waiting"
    case SharingPhase => "Sharing Symptoms"
    case QuestioningPhase => "Asking Questions"
    case RelievedPhase => "Feeling Better"
  }

  /** Distinct moods and phases are shown with distinct labels. */
  lemma LabelsAreDistinct(e1: Emotion, e2: Emotion, p1: Phase, p2: Phase)
    ensures StatusLabel(e1) == StatusLabel(e2) <==> e1 == e2
    ensures PhaseLabel(p1) == PhaseLabel(p2) <==> p1 == p2
  {
  }
}
