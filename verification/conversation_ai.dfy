/**
 * The conversation hook: an ordered chain of substring tests over the
 * normalised doctor message picks one reply branch, and every call appends
 * the raw message, the reply and the branch's topic to a conversation memory.
 */
module ConversationAi {
  import opened Text
  import opened TherapistQa

  /** The moods a reply can carry.  `Embarrassed` is returned by the clothing
      branch although the memory's own mood type does not include it. */
  datatype Mood = Anxious | Worried | Frustrated | Hopeful | Relieved | Concerned | Embarrassed

  /** The moods the memory record can hold. */
  type MemoryMood = m: Mood | m != Embarrassed witness Anxious

  datatype Animation = Wave | Nod | Think | Concern

  /** The branches of the reply chain, in the order they are tested. */
  datatype Branch =
    | Greeting
    | Problem
    | Details
    | Family
    | Previous
    | TreatmentWorries
    | LongTerm
    | Skin
    | Attempts
    | Progression
    | Impact
    | Emotional
    | Sleep
    | Clothing
    | Hope
    | Relief
    | General
    | Fallback

  const BranchCount: nat := 18

  /** The position of a branch in the chain; `BranchAt` is its inverse. */
  function Rank(b: Branch): (k: nat)
    ensures k < BranchCount && BranchAt(k) == b
  {
    match b
    case Greeting => 0
    case Problem => 1
    case Details => 2
    case Family => 3
    case Previous => 4
    case TreatmentWorries => 5
    case LongTerm => 6
    case Skin => 7
    case Attempts => 8
    case Progression => 9
    case Impact => 10
    case Emotional => 11
    case Sleep => 12
    case Clothing => 13
    case Hope => 14
    case Relief => 15
    case General => 16
    case Fallback => 17
  }

  function BranchAt(k: nat): Branch
    requires k < BranchCount
  {
    if k == 0 then Greeting
    else if k == 1 then Problem
    else if k == 2 then Details
    else if k == 3 then Family
    else if k == 4 then Previous
    else if k == 5 then TreatmentWorries
    else if k == 6 then LongTerm
    else if k == 7 then Skin
    else if k == 8 then Attempts
    else if k == 9 then Progression
    else if k == 10 then Impact
    else if k == 11 then Emotional
    else if k == 12 then Sleep
    else if k == 13 then Clothing
    else if k == 14 then Hope
    else if k == 15 then Relief
    else if k == 16 then General
    else Fallback
  }

  lemma RankOfBranchAt(k: nat)
    requires k < BranchCount
    ensures Rank(BranchAt(k)) == k
  {
  }

  /** The words each branch tests for, in the order the source lists them. */
  function Keywords(b: Branch): seq<string> {
    match b
    case Greeting => ["hi", "hello", "hey"]
    case Problem => ["problem", "issue", "symptom"]
    case Details => ["detail", "more", "describe", "when"]
    case Family => ["family", "mother", "asthma", "allergy"]
    case Previous => ["before", "previous", "past", "experience"]
    case TreatmentWorries => ["treatment", "concern", "steroid", "side effect"]
    case LongTerm => ["long", "forever", "manage", "go away"]
    case Skin => ["skin", "itch", "dry", "red"]
    case Attempts => ["try", "cream", "moisturize", "over the counter"]
    case Progression => ["worse", "progress", "change", "start"]
    case Impact => ["affect", "daily", "life", "sleep"]
    case Emotional => ["emotional", "feel", "self conscious", "embarrass"]
    case Sleep => ["sleep", "night", "wake", "rest"]
    case Clothing => ["clothing", "clothes", "sleeve", "cover"]
    case Hope => ["hope", "want", "relief", "help"]
    case Relief => ["diagnosis", "eczema", "atopic", "dermatitis", "treatment", "plan"]
    case General => ["how", "what", "why", "when"]
    case Fallback => []
  }

  /** The condition guarding each branch, on the normalised message: one of
      its words occurs.  The problem branch also fires on "what" together with
      "wrong" (the source's `a || b || c || d && e`, where `&&` binds
      tighter), and the default branch always fires. */
  predicate Fires(b: Branch, m: string) {
    match b
    case Problem => ContainsAny(m, Keywords(Problem)) || (Contains(m, "what") && Contains(m, "wrong"))
    case Fallback => true
    case _ => ContainsAny(m, Keywords(b))
  }

  /** A branch whose word list holds `w` fires on every message containing `w`. */
  lemma FiresOnKeyword(b: Branch, m: string, k: nat)
    requires k < |Keywords(b)| && Contains(m, Keywords(b)[k])
    ensures Fires(b, m)
  {
  }

  lemma FirstFiringFromScan(m: string, p: nat -> bool, i: nat)
    requires forall k: nat :: p(k) == (k < BranchCount && Fires(BranchAt(k), m))
    requires i < BranchCount
    requires forall j :: 0 <= j < i ==> !p(j)
    ensures forall c :: Rank(c) < Rank(BranchAt(i)) ==> !Fires(c, m)
  {
    RankOfBranchAt(i);
    forall c | Rank(c) < i
      ensures !Fires(c, m)
    {
      assert BranchAt(Rank(c)) == c;
      assert !p(Rank(c));
    }
  }

  /** The branch `generateResponse` takes on a normalised message: one whose
      guard holds, with no earlier guard holding; the default branch is the
      final `else`. */
  function Classify(m: string): (r: Branch)
    ensures Fires(r, m)
    ensures forall b :: Rank(b) < Rank(r) ==> !Fires(b, m)
  {
    var p := (k: nat) => k < BranchCount && Fires(BranchAt(k), m);
    match FirstIndex(p, 0, BranchCount - 1)
    case Some(i) =>
      FirstFiringFromScan(m, p, i);
      BranchAt(i)
    case None =>
      FirstFiringFromScan(m, p, BranchCount - 1);
      assert BranchAt(BranchCount - 1) == Fallback;
      Fallback
  }

  /** The converse of `Classify`'s contract: a firing branch with no earlier
      firing branch is the one taken. */
  lemma ClassifyIs(m: string, b: Branch)
    requires Fires(b, m)
    requires forall c :: Rank(c) < Rank(b) ==> !Fires(c, m)
    ensures Classify(m) == b
  {
    var r := Classify(m);
    if Rank(r) < Rank(b) {
    } else if Rank(b) < Rank(r) {
    } else {
      assert BranchAt(Rank(r)) == BranchAt(Rank(b));
    }
  }

  /** A firing branch bounds the branch taken: nothing later can win. */
  lemma FiringBounds(m: string, b: Branch)
    requires Fires(b, m)
    ensures Rank(Classify(m)) <= Rank(b)
  {
  }

  /** The topic recorded for each branch. */
  function Topic(b: Branch): string {
    match b
    case Greeting => "greeting"
    case Problem => "symptoms"
    case Details => "symptom_details"
    case Family => "family_history"
    case Previous => "previous_experience"
    case TreatmentWorries => "treatment_concerns"
    case LongTerm => "long_term_outlook"
    case Skin => "symptom_description"
    case Attempts => "treatment_attempts"
    case Progression => "symptom_progression"
    case Impact => "impact_on_life"
    case Emotional => "emotional_impact"
    case Sleep => "sleep_issues"
    case Clothing => "clothing_concerns"
    case Hope => "hope_for_relief"
    case Relief => "relief"
    case General => "general_concern"
    case Fallback => "general_patient_concern"
  }

  function ReplyMood(b: Branch): Mood {
    match b
    case Greeting => Anxious
    case Problem | TreatmentWorries | LongTerm | Progression | General | Fallback => Worried
    case Details | Previous | Skin | Attempts | Impact | Sleep => Frustrated
    case Family | Emotional => Concerned
    case Clothing => Embarrassed
    case Hope => Hopeful
    case Relief => Relieved
  }

  function ReplyAnimation(b: Branch): Animation {
    match b
    case Details | Family | Previous | Attempts | Impact | Sleep | Hope | General => Think
    case Relief => Nod
    case _ => Concern
  }

  /** The lines of the general-question branch. */
  const GeneralReplies: seq<string> := [
    "I'm really not sure, doctor. That's why I came to see you - I need your help to figure this out.",
    "I've been wondering the same thing. I'm so frustrated because I can't seem to get any relief.",
    "I'm really hoping you can help me understand what's happening. I'm worried about this getting worse.",
    "I'm not a medical expert, so I really need your guidance. This has been so stressful for me."
  ]

  /** The lines of the default branch. */
  const DefaultReplies: seq<string> := [
    "I'm really not sure about that, doctor. I'm just so worried about my skin and I really need your help.",
    "I'm sorry, I don't understand. Could you explain that in simpler terms? I'm really anxious about all of this.",
    "I'm just so frustrated with this whole situation. I hope you can help me figure out what's going on.",
    "I'm really concerned about my skin condition. It's been affecting my life so much and I need answers.",
    "I'm not sure what you mean. I'm just a regular person dealing with these skin problems and I need your expertise.",
    "I'm really hoping you can help me understand this better. I'm so worried about what's happening to my skin."
  ]

  const GeneralCount: nat := 4
  const DefaultCount: nat := 6

  /** What the patient says: the greeting line, one of the general or
      default lines by position, or an answer of the therapist table. */
  datatype Utterance = HiDoctor | GeneralLine(index: nat) | DefaultLine(index: nat) | Quote(key: QaKey)

  predicate WellFormedUtterance(u: Utterance) {
    match u
    case GeneralLine(i) => i < GeneralCount
    case DefaultLine(i) => i < DefaultCount
    case _ => true
  }

  /** The words of a line the hook writes itself; table answers have no
      words in this model. */
  function Spoken(u: Utterance): (r: Option<string>)
    requires WellFormedUtterance(u)
    ensures r.None? <==> u.Quote?
  {
    match u
    case HiDoctor => Some("Hi doctor.")
    case GeneralLine(i) => Some(GeneralReplies[i])
    case DefaultLine(i) => Some(DefaultReplies[i])
    case Quote(_) => None
  }

  /** The reply of a branch.  `pick` is the random draw: the source's
      `Math.floor(Math.random() * n)` is `pick % n`, which takes every value
      below `n` and no other; it only matters where the branch chooses among
      several lines. */
  function ReplyOf(b: Branch, pick: nat): (u: Utterance)
    ensures WellFormedUtterance(u)
  {
    match b
    case Greeting => HiDoctor
    case Problem => Quote(InitialGreeting)
    case Details => Quote(SymptomDetails)
    case Family => Quote(FamilyHistory)
    case Previous => Quote(PreviousExperience)
    case TreatmentWorries => Quote(TreatmentConcerns)
    case LongTerm => Quote(LongTermOutlook)
    case Skin => Quote(SymptomDescription)
    case Attempts => Quote(TreatmentAttempts)
    case Progression => Quote(SymptomProgression)
    case Impact => Quote(ImpactOnLife)
    case Emotional => Quote(EmotionalImpact)
    case Sleep => Quote(SleepIssues)
    case Clothing => Quote(ClothingConcerns)
    case Hope => Quote(HopeForRelief)
    case Relief => Quote(ReliefExpression)
    case General => GeneralLine(pick % GeneralCount)
    case Fallback => DefaultLine(pick % DefaultCount)
  }

  /** The conversation memory; the clock reading of the last call is an
      integer supplied by the caller. */
  datatype Memory = Memory(
    userMessages: seq<string>,
    avatarResponses: seq<Utterance>,
    topics: seq<string>,
    mood: MemoryMood,
    lastInteraction: int,
    hasSharedSymptoms: bool)

  /** The value returned to the caller of `generateResponse`. */
  datatype Response = Response(response: Utterance, mood: Mood, shouldAnimate: bool, animation: Animation)

  datatype Turn = Turn(memory: Memory, reply: Response)

  /** The memory the hook starts with, and the one `clearMemory` installs. */
  function ClearMemory(now: int): (m: Memory)
    ensures m.userMessages == [] && m.avatarResponses == [] && m.topics == []
    ensures m.mood == Anxious && !m.hasSharedSymptoms && m.lastInteraction == now
  {
    Memory([], [], [], Anxious, now, false)
  }

  /** One call of `generateResponse(raw)` at clock reading `now`. */
  function Step(mem: Memory, raw: string, pick: nat, now: int): (t: Turn)
    ensures t.memory.userMessages == mem.userMessages + [raw]
    ensures t.memory.avatarResponses == mem.avatarResponses + [t.reply.response]
    ensures |t.memory.topics| == |mem.topics| + 1 && t.memory.topics[..|mem.topics|] == mem.topics
    ensures t.memory.mood == mem.mood
    ensures t.memory.lastInteraction == now
    ensures t.memory.hasSharedSymptoms ==> mem.hasSharedSymptoms
    ensures t.reply.shouldAnimate
  {
    var b := Classify(Normalize(raw));
    var reply := ReplyOf(b, pick);
    var mem' := mem.(
      userMessages := mem.userMessages + [raw],
      lastInteraction := now,
      avatarResponses := mem.avatarResponses + [reply],
      topics := mem.topics + [Topic(b)],
      hasSharedSymptoms := if b == Greeting then false else mem.hasSharedSymptoms);
    Turn(mem', Response(reply, ReplyMood(b), true, ReplyAnimation(b)))
  }

  /** One call as the caller sees it: the message, the random pick and the
      clock reading. */
  datatype Call = Call(raw: string, pick: nat, now: int)

  /** A sequence of calls, applied in order. */
  function Run(mem: Memory, calls: seq<Call>): Memory
    decreases |calls|
  {
    if |calls| == 0 then mem
    else
      var c := calls[|calls| - 1];
      Step(Run(mem, calls[..|calls| - 1]), c.raw, c.pick, c.now).memory
  }

  /** The three histories grow together. */
  predicate Balanced(mem: Memory) {
    |mem.userMessages| == |mem.avatarResponses| == |mem.topics|
  }

  /** Every call adds exactly one entry to each history, and the mood of the
      memory is never touched: after a clear, the histories stay the same
      length, one entry per call, and the mood stays anxious. */
  lemma {:induction false} RunFromClear(now: int, calls: seq<Call>)
    ensures Balanced(Run(ClearMemory(now), calls))
    ensures |Run(ClearMemory(now), calls).userMessages| == |calls|
    ensures Run(ClearMemory(now), calls).mood == Anxious
    decreases |calls|
  {
    if |calls| > 0 {
      var init := calls[..|calls| - 1];
      RunFromClear(now, init);
    }
  }

  /** The messages of a sequence of calls, in call order. */
  function Raws(calls: seq<Call>): (r: seq<string>)
    ensures |r| == |calls|
  {
    if |calls| == 0 then [] else Raws(calls[..|calls| - 1]) + [calls[|calls| - 1].raw]
  }

  /** The last call of a run appends its raw message. */
  lemma RunAppendsRaw(mem: Memory, calls: seq<Call>)
    requires |calls| > 0
    ensures Run(mem, calls).userMessages == Run(mem, calls[..|calls| - 1]).userMessages + [calls[|calls| - 1].raw]
  {
  }

  /** The messages stored are the raw messages, in call order. */
  lemma {:induction false} RunStoresRawMessages(mem: Memory, calls: seq<Call>)
    ensures Run(mem, calls).userMessages == mem.userMessages + Raws(calls)
    decreases |calls|
  {
    if |calls| > 0 {
      var init := calls[..|calls| - 1];
      RunStoresRawMessages(mem, init);
      RunAppendsRaw(mem, calls);
      assert Raws(calls) == Raws(init) + [calls[|calls| - 1].raw];
    }
  }

  /** What a call records and answers is decided by the branch its
      normalised message takes: that branch's topic is appended, its reply and
      mood are returned, and only the greeting clears the symptom flag. */
  lemma StepFollowsBranch(mem: Memory, raw: string, pick: nat, now: int)
    ensures var b := Classify(Normalize(raw));
      var t := Step(mem, raw, pick, now);
      && t.memory.topics == mem.topics + [Topic(b)]
      && t.reply.response == ReplyOf(b, pick)
      && t.reply.mood == ReplyMood(b)
      && t.reply.animation == ReplyAnimation(b)
      && t.memory.hasSharedSymptoms == (mem.hasSharedSymptoms && b != Greeting)
  {
  }

  /** Matching ignores case and surrounding white space: two messages with
      the same normal form get the same reply, mood and topic, while the
      memory records each message as it was typed. */
  lemma SameNormalFormSameReply(mem: Memory, raw1: string, raw2: string, pick: nat, now: int)
    requires Normalize(raw1) == Normalize(raw2)
    ensures Step(mem, raw1, pick, now).reply == Step(mem, raw2, pick, now).reply
    ensures Step(mem, raw1, pick, now).memory.topics == Step(mem, raw2, pick, now).memory.topics
    ensures Step(mem, raw1, pick, now).memory.userMessages[|mem.userMessages|] == raw1
  {
  }

  /** Greeting words win over everything else: the reply is "Hi doctor.",
      the mood anxious, the topic `greeting`, and the symptom flag drops. */
  lemma GreetingFirst(mem: Memory, raw: string, pick: nat, now: int)
    requires var m := Normalize(raw); Contains(m, "hi") || Contains(m, "hello") || Contains(m, "hey")
    ensures var t := Step(mem, raw, pick, now);
      && t.reply.response == HiDoctor
      && Spoken(t.reply.response) == Some("Hi doctor.")
      && t.reply.mood == Anxious
      && t.reply.animation == Concern
      && t.memory.topics == mem.topics + ["greeting"]
      && !t.memory.hasSharedSymptoms
  {
    var m := Normalize(raw);
    if Contains(m, "hi") {
      FiresOnKeyword(Greeting, m, 0);
    } else if Contains(m, "hello") {
      FiresOnKeyword(Greeting, m, 1);
    } else {
      FiresOnKeyword(Greeting, m, 2);
    }
    ClassifyIs(m, Greeting);
  }

  /** The greeting test is a bare substring test, so "which" counts as one. */
  lemma WhichIsAGreeting()
    ensures Classify("which?") == Greeting
  {
    ContainsAt("which?", "hi", 1);
    FiresOnKeyword(Greeting, "which?", 0);
    ClassifyIs("which?", Greeting);
  }

  /** A message containing "sleep" is claimed by the impact-on-life branch
      or an earlier one, never by the sleep branch; with nothing earlier
      firing it gets the `impact_on_life` topic. */
  lemma SleepShadowedByImpact(m: string)
    requires Contains(m, "sleep")
    ensures Classify(m) != Sleep && Rank(Classify(m)) <= Rank(Impact)
    ensures (forall b :: Rank(b) < Rank(Impact) ==> !Fires(b, m)) ==> Topic(Classify(m)) == "impact_on_life"
  {
    FiresOnKeyword(Impact, m, 3);
    FiringBounds(m, Impact);
    if forall b :: Rank(b) < Rank(Impact) ==> !Fires(b, m) {
      ClassifyIs(m, Impact);
    }
  }

  /** "treatment" is caught by the treatment-concerns branch or an earlier
      one, never by the diagnosis branch that also lists it. */
  lemma TreatmentNeverRelief(m: string)
    requires Contains(m, "treatment")
    ensures Classify(m) != Relief && Rank(Classify(m)) <= Rank(TreatmentWorries)
    ensures (forall b :: Rank(b) < Rank(TreatmentWorries) ==> !Fires(b, m)) ==> Topic(Classify(m)) == "treatment_concerns"
  {
    FiresOnKeyword(TreatmentWorries, m, 0);
    FiringBounds(m, TreatmentWorries);
    if forall b :: Rank(b) < Rank(TreatmentWorries) ==> !Fires(b, m) {
      ClassifyIs(m, TreatmentWorries);
    }
  }

  /** "when" is caught by the symptom-details branch or an earlier one, so it
      never reaches the general-question branch or the default. */
  lemma WhenNeverGeneral(m: string)
    requires Contains(m, "when")
    ensures Classify(m) != General && Classify(m) != Fallback && Rank(Classify(m)) <= Rank(Details)
    ensures (forall b :: Rank(b) < Rank(Details) ==> !Fires(b, m)) ==> Topic(Classify(m)) == "symptom_details"
  {
    FiresOnKeyword(Details, m, 3);
    FiringBounds(m, Details);
    if forall b :: Rank(b) < Rank(Details) ==> !Fires(b, m) {
      ClassifyIs(m, Details);
    }
  }

  /** The two catch-all branches: a question word with no specific match
      gets one of the four general lines, anything else one of the six
      default lines; the mood is worried in both. */
  lemma Fallbacks(mem: Memory, raw: string, pick: nat, now: int)
    requires forall b :: Rank(b) < Rank(General) ==> !Fires(b, Normalize(raw))
    ensures var t := Step(mem, raw, pick, now);
      && t.reply.mood == Worried
      && (Fires(General, Normalize(raw)) ==>
            t.reply.response.GeneralLine? && t.reply.response.index < GeneralCount
            && t.memory.topics == mem.topics + ["general_concern"])
      && (!Fires(General, Normalize(raw)) ==>
            t.reply.response.DefaultLine? && t.reply.response.index < DefaultCount
            && t.memory.topics == mem.topics + ["general_patient_concern"])
  {
    var m := Normalize(raw);
    CatchAllBranch(m);
    StepFollowsBranch(mem, raw, pick, now);
    if Fires(General, m) {
      assert Classify(m) == General;
    } else {
      assert Classify(m) == Fallback;
    }
  }

  /** With no specific branch firing, the general branch is taken exactly
      when its question words occur, and the default otherwise. */
  lemma CatchAllBranch(m: string)
    requires forall b :: Rank(b) < Rank(General) ==> !Fires(b, m)
    ensures Classify(m) == (if Fires(General, m) then General else Fallback)
  {
    if Fires(General, m) {
      ClassifyIs(m, General);
    } else {
      ClassifyIs(m, Fallback);
    }
  }

  /** Every general line is a possible reply: a draw below the number of
      lines picks that very line. */
  lemma GeneralLinesReachable(mem: Memory, raw: string, pick: nat, now: int)
    requires Classify(Normalize(raw)) == General && pick < GeneralCount
    ensures Step(mem, raw, pick, now).reply.response == GeneralLine(pick)
    ensures Spoken(Step(mem, raw, pick, now).reply.response) == Some(GeneralReplies[pick])
  {
    StepFollowsBranch(mem, raw, pick, now);
    CatchAllReplies(pick);
  }

  /** Likewise every default line. */
  lemma DefaultLinesReachable(mem: Memory, raw: string, pick: nat, now: int)
    requires Classify(Normalize(raw)) == Fallback && pick < DefaultCount
    ensures Step(mem, raw, pick, now).reply.response == DefaultLine(pick)
    ensures Spoken(Step(mem, raw, pick, now).reply.response) == Some(DefaultReplies[pick])
  {
    StepFollowsBranch(mem, raw, pick, now);
    CatchAllReplies(pick);
  }

  lemma CatchAllReplies(pick: nat)
    ensures pick < GeneralCount ==> ReplyOf(General, pick) == GeneralLine(pick)
    ensures pick < DefaultCount ==> ReplyOf(Fallback, pick) == DefaultLine(pick)
  {
  }

  /** The clothing branch is the one reply whose mood lies outside the
      memory's mood type. */
  lemma OnlyClothingEmbarrassed(b: Branch)
    ensures ReplyMood(b) == Embarrassed <==> b == Clothing
  {
  }
}
