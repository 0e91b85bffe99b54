/**
 * The patient's question/answer knowledge base and its resolver
 * (`findBestAnswer`, `getQuestionsByCategory`, `getCategories` of
 * app/lib/mariem-knowledge-base.ts).
 */
module KnowledgeBase {
  import opened Text

  /** The entries of the knowledge base, in declaration order; each has
      its own question, answer, category and keywords. */
  datatype Entry =
    | Name
    | Age
    | Home
    | Problem
    | Onset
    | Symptoms
    | Progression
    | Family
    | Previous
    | Treatment
    | Impact
    | Sleep
    | Clothing
    | Emotional
    | TreatmentConcerns
    | LongTerm
    | Hope
    | Work
    | Triggers

  /** What the resolver answers: an entry's answer, or the fallback. */
  datatype Reply = Answer(entry: Entry) | DefaultReply

  /** Declaration order matters: it is the resolver's tie-break. */
  const Kb: seq<Entry> :=
    [ Name,
      Age,
      Home,
      Problem,
      Onset,
      Symptoms,
      Progression,
      Family,
      Previous,
      Treatment,
      Impact,
      Sleep,
      Clothing,
      Emotional,
      TreatmentConcerns,
      LongTerm,
      Hope,
      Work,
      Triggers ]

  const ProgressionIndex: nat := 6

  function Question(e: Entry): string {
    match e
    case Name => "What's your name?"
    case Age => "How old are you?"
    case Home => "Where do you live?"
    case Problem => "What's your problem?"
    case Onset => "When did this start?"
    case Symptoms => "Can you describe your symptoms?"
    case Progression => "How have your symptoms changed over time?"
    case Family => "Do you have any family members with allergies or asthma?"
    case Previous => "Have you had similar skin issues before?"
    case Treatment => "What have you tried so far to treat your symptoms?"
    case Impact => "How do these symptoms affect your daily life?"
    case Sleep => "How does this affect your sleep?"
    case Clothing => "How does this affect your clothing choices?"
    case Emotional => "How has this affected you emotionally?"
    case TreatmentConcerns => "What are your concerns about treatment options?"
    case LongTerm => "What are your concerns about the long-term nature of this condition?"
    case Hope => "What are you hoping to get from this visit?"
    case Work => "How does this affect your work?"
    case Triggers => "What makes your symptoms worse?"
  }

  function Category(e: Entry): string {
    match e
    case Name => "personal"
    case Age => "personal"
    case Home => "personal"
    case Problem => "main_problem"
    case Onset => "symptoms"
    case Symptoms => "symptoms"
    case Progression => "symptoms"
    case Family => "family_history"
    case Previous => "previous_experience"
    case Treatment => "treatment"
    case Impact => "impact"
    case Sleep => "sleep"
    case Clothing => "clothing"
    case Emotional => "emotional"
    case TreatmentConcerns => "treatment_concerns"
    case LongTerm => "long_term"
    case Hope => "hope"
    case Work => "work"
    case Triggers => "triggers"
  }

  /** The keywords of an entry, in the order they are tried. */
  function Keywords(e: Entry): seq<string> {
    match e
    case Name =>
      ["name", "call", "what's your name", "what is your name"]
    case Age =>
      ["age", "old", "how old", "years old"]
    case Home =>
      ["where", "live", "location", "uae", "emirates"]
    case Problem =>
      ["problem", "issue", "what's wrong", "what brings you", "what is your problem"]
    case Onset =>
      ["when did this start", "when did symptoms start", "when symptoms started", "when did it start", "started", "begin"]
    case Symptoms =>
      ["describe symptoms", "symptoms", "what symptoms", "how does it look", "describe your skin"]
    case Progression =>
      ["changed over time", "getting worse", "progression", "how has it changed", "worse"]
    case Family =>
      ["family", "allergies", "asthma", "mother", "family history", "anyone in your family"]
    case Previous =>
      ["before", "similar", "previous", "had this before", "experienced this before", "past"]
    case Treatment =>
      ["tried", "what have you tried", "treatment attempts", "what did you try", "creams", "moisturizing"]
    case Impact =>
      ["affect daily life", "daily life", "impact on life", "how does this affect", "daily activities"]
    case Sleep =>
      ["sleep", "night", "affect sleep", "sleep issues", "wake up"]
    case Clothing =>
      ["clothing", "clothes", "what you wear", "clothing choices", "cover up"]
    case Emotional =>
      ["emotionally", "emotional impact", "how do you feel", "frustrated", "worried"]
    case TreatmentConcerns =>
      ["treatment concerns", "treatment options", "concerns about treatment", "steroids", "side effects"]
    case LongTerm =>
      ["long term", "forever", "permanent", "manage long term", "go away"]
    case Hope =>
      ["hoping", "hope for relief", "what do you hope", "what are you hoping", "relief"]
    case Work =>
      ["work", "job", "office", "focus", "distracted"]
    case Triggers =>
      ["worse", "triggers", "what makes it worse", "stress", "fabrics"]
  }

  /** The words of each answer, as the knowledge base spells them. */
  function AnswerText(e: Entry): string {
    match e
    case Name =>
      "I'm Mariem."
    case Age =>
      "I'm 45 years old."
    case Home =>
      "I live in the United Arab Emirates with my family."
    case Problem =>
      "Hi doctor, I'm Mariem. I've been dealing with some really frustrating skin issues for quite a while now. My skin gets so dry and itchy, and sometimes it's red and inflamed, especially on my arms and neck. It's been really bothering me and I'm not sure what's going on."
    case Onset =>
      "It started a few months ago, but it's been getting progressively worse. I've tried moisturizing, but it doesn't seem to help much. The itching gets really bad, especially at night. I'm really worried about this - it's affecting my sleep and I'm embarrassed to wear short sleeves."
    case Symptoms =>
      "My skin gets really dry, itchy, and sometimes it's red and inflamed, especially on my arms and neck. The itching gets really bad, especially at night. Sometimes I wake up scratching and I'm afraid I'm making it worse. It's really affecting my quality of life."
    case Progression =>
      "It started a few months ago, but it's been getting progressively worse. At first it was just a little dry, but now it's constantly itchy and inflamed. I'm really worried about where this is heading if we don't figure out what's causing it."
    case Family =>
      "Actually, yes. My mother has asthma. Do you think that could be related to what's happening with my skin? I'm really hoping this isn't something serious."
    case Previous =>
      "I've had a few rashes before, but I never really thought about it as something long-term. This feels different though - it's more persistent and really uncomfortable. I'm so frustrated because nothing I try seems to help."
    case Treatment =>
      "I've tried moisturizing, but it doesn't seem to help much. I've also tried some over-the-counter creams, but they only provide temporary relief. I'm really frustrated because I feel like I'm not getting anywhere with this."
    case Impact =>
      "The itching gets really bad, especially at night, and it's been bothering me a lot. I can't sleep properly, I'm embarrassed to wear certain clothes, and I'm constantly worried about people noticing. It's really taking a toll on me emotionally."
    case Sleep =>
      "I wake up multiple times during the night because of the itching. Sometimes I scratch in my sleep and wake up with scratches. I'm exhausted during the day because I'm not getting proper rest. It's really affecting my daily life."
    case Clothing =>
      "I avoid wearing short sleeves or anything that shows my arms and neck. I'm embarrassed about people seeing the redness and inflammation. I used to love wearing certain clothes, but now I feel like I have to cover up all the time."
    case Emotional =>
      "It's been really hard on me. I feel self-conscious all the time, and the constant itching is driving me crazy. I'm worried about what people think when they see my skin, and I'm frustrated that I can't seem to fix it myself."
    case TreatmentConcerns =>
      "I've heard about corticosteroids, but I'm a bit concerned about using them too much. Are they safe for long-term use? I'm worried about side effects, but I'm also desperate for some relief from this itching."
    case LongTerm =>
      "Will this condition go away, or is it something I'll have to manage long-term? I'm really hoping this isn't something I'll have to deal with forever. It's been so hard on me emotionally."
    case Hope =>
      "I'm really hoping you can help me figure out what's causing this and give me some relief. I want to be able to sleep through the night without itching, and I want to feel confident about my skin again. I'm desperate for some answers."
    case Work =>
      "I work in an office, but this skin problem is making it difficult to focus sometimes because of the itching. I'm constantly distracted and worried about people noticing my skin condition."
    case Triggers =>
      "I notice it gets worse when I'm stressed, and sometimes certain fabrics make it itch more. Temperature changes seem to affect it too. I've tried to avoid wool and synthetic fabrics, but it doesn't seem to make much difference."
  }

  function ReplyText(r: Reply): string {
    match r
    case Answer(e) => AnswerText(e)
    case DefaultReply =>
      "I'm not sure I understand that question, doctor. Could you explain it differently? I want to make sure I give you the right information to help me."
  }

  /** Some keyword of `e`, lower-cased, occurs in the normalised question. */
  predicate KeywordHit(q: string, e: Entry) {
    exists k :: 0 <= k < |Keywords(e)| && Contains(q, Lower(Keywords(e)[k]))
  }

  /** The lower-cased entry question occurs in the normalised question, or
      the other way round. */
  predicate PartialHit(q: string, e: Entry) {
    Contains(q, Lower(Question(e))) || Contains(Lower(Question(e)), q)
  }

  /** How a question was resolved: by the keyword scan, by the partial
      question match, or not at all. */
  datatype Resolution = ByKeyword(index: nat) | ByQuestion(index: nat) | NoMatch

  /** The three phases of `findBestAnswer`, in order, on the normalised
      question. */
  function Resolve(kb: seq<Entry>, raw: string): (r: Resolution)
    ensures r.ByKeyword? ==>
      && r.index < |kb|
      && KeywordHit(Normalize(raw), kb[r.index])
      && forall j :: 0 <= j < r.index ==> !KeywordHit(Normalize(raw), kb[j])
    ensures !r.ByKeyword? ==> forall j :: 0 <= j < |kb| ==> !KeywordHit(Normalize(raw), kb[j])
    ensures r.ByQuestion? ==>
      && r.index < |kb|
      && PartialHit(Normalize(raw), kb[r.index])
      && forall j :: 0 <= j < r.index ==> !PartialHit(Normalize(raw), kb[j])
    ensures r.NoMatch? <==>
      && (forall j :: 0 <= j < |kb| ==> !KeywordHit(Normalize(raw), kb[j]))
      && (forall j :: 0 <= j < |kb| ==> !PartialHit(Normalize(raw), kb[j]))
  {
    var q := Normalize(raw);
    match FindFirst(kb, e => KeywordHit(q, e), 0)
    case Some(i) => ByKeyword(i)
    case None =>
      match FindFirst(kb, e => PartialHit(q, e), 0)
      case Some(i) => ByQuestion(i)
      case None => NoMatch
  }

  /** `findBestAnswer`, naming the reply it picks: total, always some
      entry's answer or the default, and the default exactly when neither
      phase finds anything. */
  function FindBestReply(kb: seq<Entry>, raw: string): (r: Reply)
    ensures r.Answer? ==> exists i :: 0 <= i < |kb| && r.entry == kb[i]
    ensures r == DefaultReply <==>
      && (forall j :: 0 <= j < |kb| ==> !KeywordHit(Normalize(raw), kb[j]))
      && (forall j :: 0 <= j < |kb| ==> !PartialHit(Normalize(raw), kb[j]))
  {
    match Resolve(kb, raw)
    case ByKeyword(i) => Answer(kb[i])
    case ByQuestion(i) => Answer(kb[i])
    case NoMatch => DefaultReply
  }

  /** `findBestAnswer` itself: the words of the picked reply. */
  function FindBestAnswer(kb: seq<Entry>, raw: string): string {
    ReplyText(FindBestReply(kb, raw))
  }

  /** Matching ignores case and surrounding white space: normalising the
      question first changes nothing. */
  lemma NormalizedQuestionSameAnswer(kb: seq<Entry>, raw: string)
    ensures Resolve(kb, Normalize(raw)) == Resolve(kb, raw)
    ensures FindBestReply(kb, Normalize(raw)) == FindBestReply(kb, raw)
  {
    NormalizeIdempotent(raw);
  }

  /** Keyword precedence: a keyword hit in entry `i` means the keyword phase
      answers, with entry `i` or an earlier one; a later entry never wins. */
  lemma EarlierKeywordEntryWins(kb: seq<Entry>, raw: string, i: nat)
    requires i < |kb| && KeywordHit(Normalize(raw), kb[i])
    ensures Resolve(kb, raw).ByKeyword? && Resolve(kb, raw).index <= i
    ensures FindBestReply(kb, raw) == Answer(kb[Resolve(kb, raw).index])
  {
  }

  /** The earliest entry with a keyword hit is the one that answers. */
  lemma FirstKeywordEntryAnswers(kb: seq<Entry>, raw: string, i: nat)
    requires i < |kb| && KeywordHit(Normalize(raw), kb[i])
    requires forall j :: 0 <= j < i ==> !KeywordHit(Normalize(raw), kb[j])
    ensures Resolve(kb, raw) == ByKeyword(i)
    ensures FindBestReply(kb, raw) == Answer(kb[i])
  {
    EarlierKeywordEntryWins(kb, raw, i);
  }

  /** Every keyword of every entry is non-empty. */
  lemma KeywordsNonEmpty(e: Entry)
    ensures forall k :: 0 <= k < |Keywords(e)| ==> |Keywords(e)[k]| > 0
  {
    if IsEarly(e) {
      EarlyKeywordsNonEmpty(e);
    } else {
      LateKeywordsNonEmpty(e);
    }
  }

  /** The entries up to the treatment entry. */
  predicate IsEarly(e: Entry) {
    e.Name? || e.Age? || e.Home? || e.Problem? || e.Onset? || e.Symptoms? || e.Progression? || e.Family? || e.Previous? || e.Treatment?
  }

  lemma EarlyKeywordsNonEmpty(e: Entry)
    requires IsEarly(e)
    ensures forall k :: 0 <= k < |Keywords(e)| ==> |Keywords(e)[k]| > 0
  {
  }

  lemma LateKeywordsNonEmpty(e: Entry)
    requires !IsEarly(e)
    ensures forall k :: 0 <= k < |Keywords(e)| ==> |Keywords(e)[k]| > 0
  {
  }

  /** So the empty question hits no keyword at all. */
  lemma EmptyHitsNoKeyword(e: Entry)
    ensures !KeywordHit("", e)
  {
    KeywordsNonEmpty(e);
  }

  /** Empty or white-space-only input hits no keyword, but every entry
      question contains the empty string, so the first entry answers. */
  lemma BlankQuestionAnswersName(raw: string)
    requires IsBlank(raw)
    ensures Resolve(Kb, raw) == ByQuestion(0)
    ensures FindBestReply(Kb, raw) == Answer(Name)
  {
    BlankNormalizesToEmpty(raw);
    forall j | 0 <= j < |Kb|
      ensures !KeywordHit("", Kb[j])
    {
      EmptyHitsNoKeyword(Kb[j]);
    }
    assert PartialHit("", Kb[0]);
  }

  /** "What's your name?" resolves through the first keyword of the first
      entry. */
  lemma NameQuestionAnswersName()
    ensures FindBestReply(Kb, "What's your name?") == Answer(Name)
  {
    NameQuestionNormal();
    NameKeywordHit("what's your name?");
    EarlierKeywordEntryWins(Kb, "What's your name?", 0);
  }

  lemma NameQuestionNormal()
    ensures Normalize("What's your name?") == "what's your name?"
  {
    var s := "What's your name?";
    NormalizeUntrimmed(s);
    assert Lower(s) == "what's your name?" by {
      forall i | 0 <= i < |s|
        ensures Lower(s)[i] == "what's your name?"[i]
      {
      }
    }
  }

  lemma NameKeywordHit(q: string)
    requires q == "what's your name?"
    ensures KeywordHit(q, Kb[0])
  {
    assert Lower(Keywords(Name)[0]) == "name";
    ContainsAt(q, "name", 12);
  }

  /** The name answer's words. */
  lemma NameAnswerText()
    ensures ReplyText(Answer(Name)) == "I'm Mariem."
  {
  }

  lemma WorseHitsProgression(q: string)
    requires Contains(q, "worse")
    ensures KeywordHit(q, Kb[ProgressionIndex])
    ensures Kb[ProgressionIndex] == Progression
  {
    assert Lower(Keywords(Progression)[4]) == "worse";
  }

  /** "worse" is a keyword of both the symptom-progression entry and the
      later triggers entry: the earlier one always shadows the later. */
  lemma WorseNeverReachesTriggers(raw: string)
    requires Contains(Normalize(raw), "worse")
    ensures Resolve(Kb, raw).ByKeyword? && Resolve(Kb, raw).index <= ProgressionIndex
    ensures FindBestReply(Kb, raw) != Answer(Triggers)
  {
    WorseHitsProgression(Normalize(raw));
    EarlierKeywordEntryWins(Kb, raw, ProgressionIndex);
    EarlyEntriesAreNotTriggers();
  }

  lemma EarlyEntriesAreNotTriggers()
    ensures forall i :: 0 <= i <= ProgressionIndex ==> Kb[i] != Triggers
  {
  }

  /** A question containing "worse" and no keyword of the entries before
      the progression entry gets the progression answer. */
  lemma WorseAloneAnswersProgression(raw: string)
    requires Contains(Normalize(raw), "worse")
    requires forall j :: 0 <= j < ProgressionIndex ==> !KeywordHit(Normalize(raw), Kb[j])
    ensures FindBestReply(Kb, raw) == Answer(Progression)
  {
    WorseHitsProgression(Normalize(raw));
    FirstKeywordEntryAnswers(Kb, raw, ProgressionIndex);
  }

  /** `getQuestionsByCategory`: the entries of one category, in their
      original order. */
  function QuestionsByCategory(kb: seq<Entry>, category: string): (r: seq<Entry>)
    ensures forall k :: 0 <= k < |r| ==> Category(r[k]) == category
    ensures forall i :: 0 <= i < |kb| && Category(kb[i]) == category ==> kb[i] in r
    ensures IsSubsequence(r, kb)
    ensures forall e :: multiset(r)[e] == if Category(e) == category then multiset(kb)[e] else 0
  {
    if |kb| == 0 then []
    else
      assert kb == [kb[0]] + kb[1..];
      if Category(kb[0]) == category then [kb[0]] + QuestionsByCategory(kb[1..], category)
      else QuestionsByCategory(kb[1..], category)
  }

  /** `xs` can be obtained from `ys` by deleting elements. */
  predicate IsSubsequence<T(==)>(xs: seq<T>, ys: seq<T>)
    decreases |ys|
  {
    || |xs| == 0
    || (&& |ys| > 0
        && ((xs[0] == ys[0] && IsSubsequence(xs[1..], ys[1..])) || IsSubsequence(xs, ys[1..])))
  }

  predicate NoDuplicates<T(==)>(xs: seq<T>) {
    forall i, j :: 0 <= i < j < |xs| ==> xs[i] != xs[j]
  }

  /** Reference definition of first-occurrence deduplication: an element is
      kept exactly where it does not occur earlier. */
  function FirstOccurrences<T(==,!new)>(xs: seq<T>): (r: seq<T>)
    ensures NoDuplicates(r)
    ensures forall x :: x in r <==> x in xs
    decreases |xs|
  {
    if |xs| == 0 then []
    else
      var init := FirstOccurrences(xs[..|xs| - 1]);
      var last := xs[|xs| - 1];
      assert forall x :: x in xs <==> x in xs[..|xs| - 1] || x == last;
      if last in xs[..|xs| - 1] then init else init + [last]
  }

  /** `Array.from(new Set(xs))`: a set remembers what was seen, and the
      elements come out in first-insertion order. */
  method Dedup<T(==,!new)>(xs: seq<T>) returns (r: seq<T>)
    ensures r == FirstOccurrences(xs)
  {
    var seen: set<T> := {};
    r := [];
    for i := 0 to |xs|
      invariant r == FirstOccurrences(xs[..i])
      invariant forall x :: x in seen <==> x in xs[..i]
    {
      assert xs[..i + 1][..i] == xs[..i];
      if xs[i] !in seen {
        r := r + [xs[i]];
        seen := seen + {xs[i]};
      }
    }
    assert xs[..|xs|] == xs;
  }

  function CategoryColumn(kb: seq<Entry>): (r: seq<string>)
    ensures |r| == |kb| && forall i :: 0 <= i < |kb| ==> r[i] == Category(kb[i])
  {
    seq(|kb|, i requires 0 <= i < |kb| => Category(kb[i]))
  }

  /** `getCategories`: the categories in first-occurrence order, each once,
      covering every entry. */
  method Categories(kb: seq<Entry>) returns (cats: seq<string>)
    ensures cats == FirstOccurrences(CategoryColumn(kb))
    ensures NoDuplicates(cats)
    ensures forall i :: 0 <= i < |kb| ==> Category(kb[i]) in cats
    ensures forall c :: c in cats ==> exists i :: 0 <= i < |kb| && Category(kb[i]) == c
  {
    var column := CategoryColumn(kb);
    cats := Dedup(column);
    forall i | 0 <= i < |kb|
      ensures Category(kb[i]) in cats
    {
      assert column[i] in column;
    }
  }
}
