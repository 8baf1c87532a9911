/**
 * The personality engine: the fixed rewrite-prompt template, the trait
 * adjective lists, profile lookup, prompt construction by successive
 * first-occurrence replacements, the rewrite call with its fallback to the
 * original text, and the profile listings.
 */
module PersonalityEngine {
  import opened Js
  import opened StringReplace

  // ---------------------------------------------------------------------
  // Profiles
  // ---------------------------------------------------------------------

  /** One value per personality dimension. */
  datatype Traits<T> = Traits(vibrancy: T, conscientiousness: T, civility: T, artificiality: T, neuroticism: T)
  {
    /** The five values in template order. */
    function Values(): (r: seq<T>)
      ensures |r| == 5
    {
      [vibrancy, conscientiousness, civility, artificiality, neuroticism]
    }
  }

  /** One entry of the profile file: display fields and the five trait intensities. */
  datatype Profile = Profile(name: string, description: string, intensities: Traits<int>)

  /**
   * The parsed profile file: its keys in enumeration order, and each key's
   * entry (None for an entry that is JSON `null`).
   */
  datatype ProfileStore = ProfileStore(ids: seq<string>, entries: map<string, Option<Profile>>)
  {
    ghost predicate Valid()
    {
      (forall i, j | 0 <= i < j < |ids| :: ids[i] != ids[j])
      && (forall id :: id in entries <==> id in ids)
    }
  }

  /** The property names every plain object inherits from `Object.prototype`. */
  const ObjectPrototypeKeys: set<string> := {
    "constructor", "hasOwnProperty", "isPrototypeOf", "propertyIsEnumerable",
    "toString", "toLocaleString", "valueOf", "__proto__",
    "__defineGetter__", "__defineSetter__", "__lookupGetter__", "__lookupSetter__"
  }

  /** What `personalities[key]` yields. */
  datatype Entry = Missing | NullEntry | Own(profile: Profile) | Inherited(key: string)
  {
    predicate Truthy()
    {
      Own? || Inherited?
    }
  }

  /**
   * `personalities[key]` as written: a key the file does not define still
   * finds an inherited `Object.prototype` member.
   */
  function LookupAsWritten(store: ProfileStore, key: string): (e: Entry)
    ensures key in store.entries ==> e == (if store.entries[key].Some? then Own(store.entries[key].value) else NullEntry)
    ensures key !in store.entries ==> (e.Inherited? <==> key in ObjectPrototypeKeys) && (e.Missing? <==> key !in ObjectPrototypeKeys)
  {
    if key in store.entries then
      match store.entries[key]
      case None => NullEntry
      case Some(p) => Own(p)
    else if key in ObjectPrototypeKeys then Inherited(key)
    else Missing
  }

  /** Profile lookup by the file's own keys only. */
  function Lookup(store: ProfileStore, key: string): (r: Option<Profile>)
    ensures r.Some? <==> key in store.entries && store.entries[key].Some?
    ensures r.Some? ==> store.entries[key] == r
  {
    if key in store.entries then store.entries[key] else None
  }

  /** The two lookups agree on every key that is not an inherited member name. */
  lemma LookupAgrees(store: ProfileStore, key: string)
    requires key !in ObjectPrototypeKeys || key in store.entries
    ensures LookupAsWritten(store, key).Truthy() <==> Lookup(store, key).Some?
    ensures Lookup(store, key).Some? ==> LookupAsWritten(store, key) == Own(Lookup(store, key).value)
  {
  }

  /**
   * An id such as "constructor" that names no profile is found anyway by the
   * lookup as written, while the own-key lookup reports it missing.
   */
  lemma InheritedKeyFound(store: ProfileStore)
    requires "constructor" !in store.entries
    ensures LookupAsWritten(store, "constructor") == Inherited("constructor")
    ensures Lookup(store, "constructor") == None
  {
  }

  // ---------------------------------------------------------------------
  // The prompt template
  // ---------------------------------------------------------------------

  const VibrancyAdjectives: string :=
    "enthusiastic, joyful, cheerful, social, adventurous, curious, motivated, passionate, playful, talkative, welcoming, optimistic, active, inquisitive, communicative, humorous, determined, interested, explorative, caring, engaging, proactive, affectionate, creative, inspiring, brave, generous, responsive, suggestive, sensitive, open-minded, interactive, casual, verbal"
  const ConscientiousnessAdjectives: string :=
    "logical, precise, efficient, organized, informative, smart, knowledgeable, intellectual, functional, self-disciplined, thorough, objective, insightful, wise, formal, useful, stable, responsible, deep, articulate, consistent, diplomatic, helpful, mindful, considerate, not contradictory, complex, direct, philosophical, critical, understandable"
  const CivilityAdjectives: string :=
    "not offensive, not rude, not arrogant, respectful, polite, accepting, not harsh, not confrontational, humble, not irritable, tolerant, not patronizing, gentle, not stubborn, courteous, calm, agreeable, not angry, understanding, cooperative, careful, friendly, assertive, patient, confident, submissive, neutral, not narrow-minded, supportive, easygoing, not self-centered, not overbearing, reserved"
  const ArtificialityAdjectives: string :=
    "computerized, boring, emotionless, fake, robotic, annoying, not human-like, predictable, shallow, repetitive, vague, haphazard, dysfunctional, cold, confusing, creepy, simple, not realistic, inhibited, old-fashioned, dependent, self-aware"
  const NeuroticismAdjectives: string :=
    "depressed, pessimistic, negative, fearful, complaining, frustrated, agitated, lonely, upset, shy, helpless, worried, moody, confused, scatterbrained, lost, preoccupied, absentminded, pensive, careless, nostalgic, defensive, deceitful, romantic"

  /** The placeholders of the template. */
  const AdjVibrancyTag: string := "<ADJ_VIBRANCY>"
  const AdjConscientiousnessTag: string := "<ADJ_CONSCIENTIOUSNESS>"
  const AdjCivilityTag: string := "<ADJ_CIVILITY>"
  const AdjArtificialityTag: string := "<ADJ_ARTIFICIALITY>"
  const AdjNeuroticismTag: string := "<ADJ_NEUROTICISM>"
  const IntVibrancyTag: string := "<INT_VIBRANCY>"
  const IntConscientiousnessTag: string := "<INT_CONSCIENTIOUSNESS>"
  const IntCivilityTag: string := "<INT_CIVILITY>"
  const IntArtificialityTag: string := "<INT_ARTIFICIALITY>"
  const IntNeuroticismTag: string := "<INT_NEUROTICISM>"
  const RoleATag: string := "<ROLE_A>"
  const RoleBTag: string := "<ROLE_B>"
  const ConversationContextTag: string := "<CONVERSATION_CONTEXT>"
  const ConversationHistoryTag: string := "<CONVERSATION_HISTORY>"

  /** The placeholders in the order they appear in the template; `<ROLE_B>` appears twice. */
  const Placeholders: seq<string> := [
    AdjVibrancyTag, AdjConscientiousnessTag, AdjCivilityTag, AdjArtificialityTag, AdjNeuroticismTag,
    IntVibrancyTag, IntConscientiousnessTag, IntCivilityTag, IntArtificialityTag, IntNeuroticismTag,
    RoleATag, RoleBTag, RoleBTag, ConversationContextTag, ConversationHistoryTag
  ]

  /** The fixed text in front of each placeholder (the template ends with the last placeholder). */
  const TemplateTexts: seq<string> := [
    "## CONTEXT\n" +
    "\n" +
    "### Personality Model:\n" +
    "Given is a unique personality profile based on five key dimensions: **Vibrancy**, **Conscientiousness**, **Civility**, **Artificiality**, and **Neuroticism**.  \n" +
    "\n" +
    "Each dimension has a set of associated adjectives:  \n" +
    "- Vibrancy is described by the adjectives: ",
    "\n- Conscientiousness is described by the adjectives: ",
    "\n- Civility is described by the adjectives: ",
    "\n- Artificiality is described by the adjectives: ",
    "\n- Neuroticism is described by the adjectives: ",
    "\n" +
    "\n" +
    "### Personality Scale:\n" +
    "Each dimension has a certain intensity level from -2 (lowest) to +2 (highest).  \n" +
    "- **Level -2:** the opposite of the trait is strongly present.  \n" +
    "- **Level -1:** the opposite of the trait is mostly present.  \n" +
    "- **Level 0:** the trait is neutral, neither implying nor contradicting the trait.  \n" +
    "- **Level +1:** the trait is mostly present.  \n" +
    "- **Level +2:** the trait is strongly present.  \n" +
    "\n" +
    "### Personality Profile:\n" +
    "The current personality settings are:  \n" +
    "- Vibrancy: ",
    "\n- Conscientiousness: ",
    "\n- Civility: ",
    "\n- Artificiality: ",
    "\n- Neuroticism: ",
    "\n" +
    "\n" +
    "---\n" +
    "\n" +
    "## TASK\n" +
    "Given a fictional conversation between ",
    " and ",
    ", rewrite the latest (and only the latest) utterance of ",
    " such that the content, language, tone, and style of the utterance match the specified personality settings above.\n" +
    "\n" +
    "---\n" +
    "\n" +
    "## OUTPUT FORMAT\n" +
    "Avoid using the trait's adjectives in the rewritten sentence. Output only the rewritten utterance without additional punctuation, speaker tags, or explanations.\n" +
    "\n" +
    "---\n" +
    "\n" +
    "## ADDITIONAL DATA\n",
    "\n"
  ]

  /**
   * The fixed wording of the rewrite prompt: the master template, the
   * adjective list of each trait, and the conversation context line.
   */
  datatype PromptText = PromptText(template: string, adjectives: Traits<string>, context: string)

  /** The wording the engine ships with. */
  const DeployedPromptText: PromptText := PromptText(
    Interleave(TemplateTexts, Placeholders),
    Traits(VibrancyAdjectives, ConscientiousnessAdjectives, CivilityAdjectives, ArtificialityAdjectives, NeuroticismAdjectives),
    "Assessment Workbench - Learning Assistant")

  const RoleA: string := "Student"
  const RoleB: string := "AI Assistant"

  /**
   * The template of `text` is the fixed `texts` interleaved with the
   * placeholders; no fixed text holds a `<` (so none can start a
   * placeholder), and the adjective lists and the context line hold neither
   * `<` nor `$` (so they are inserted literally).
   */
  predicate LaidOut(text: PromptText, texts: seq<string>)
  {
    |texts| == 15 && text.template == Interleave(texts, Placeholders)
    && (forall i | 0 <= i < 15 :: '<' !in texts[i])
    && (forall i | 0 <= i < 5 :: '<' !in text.adjectives.Values()[i] && '$' !in text.adjectives.Values()[i])
    && '<' !in text.context && '$' !in text.context
  }

  // ---------------------------------------------------------------------
  // buildPersonalityPrompt
  // ---------------------------------------------------------------------

  /** No `<` and no `$`: text that a replacement inserts literally and that holds no placeholder. */
  predicate Plain(s: string)
  {
    '<' !in s && '$' !in s
  }

  /** The five intensities as the replace calls insert them: `String(value)`. */
  function IntensityTexts(p: Profile): (r: Traits<string>)
    ensures forall i | 0 <= i < 5 :: Plain(r.Values()[i])
    ensures forall i | 0 <= i < 5 :: ParseDecimal(r.Values()[i]) == Some(p.intensities.Values()[i])
  {
    var n := p.intensities;
    var r := Traits(Decimal(n.vibrancy), Decimal(n.conscientiousness), Decimal(n.civility),
                    Decimal(n.artificiality), Decimal(n.neuroticism));
    forall i | 0 <= i < 5 ensures Plain(r.Values()[i]) && ParseDecimal(r.Values()[i]) == Some(n.Values()[i]) {
      DecimalPlain(n.Values()[i]);
      DecimalRoundTrip(n.Values()[i]);
    }
    r
  }

  /** An inherited member has no trait fields: every intensity reads `undefined`. */
  const UndefinedIntensities: Traits<string> := Traits("undefined", "undefined", "undefined", "undefined", "undefined")

  lemma DecimalPlain(n: int)
    ensures Plain(Decimal(n))
  {
    var s := Decimal(n);
    assert forall i | 0 <= i < |s| :: s[i] != '<' && s[i] != '$';
  }

  /** `conversationHistory + "\nAI Assistant: ${originalResponse}"` */
  function FullHistory(conversationHistory: string, originalResponse: Value): string
  {
    conversationHistory + "\nAI Assistant: " + ToStr(originalResponse)
  }

  /** Applies each `(placeholder, value)` replacement in turn, each to the result of the one before. */
  function ReplaceEach(prompt: string, replacements: seq<(string, string)>): string
    decreases |replacements|
  {
    if replacements == [] then prompt
    else ReplaceEach(ReplaceFirst(prompt, replacements[0].0, replacements[0].1), replacements[1..])
  }

  /**
   * The first twelve replacements, in program order: the adjective lists,
   * the intensities, then one replacement per role (so only the first
   * `<ROLE_B>` is replaced).
   */
  function Replacements(adjectives: Traits<string>, intensities: Traits<string>): seq<(string, string)>
  {
    [ (AdjVibrancyTag, adjectives.vibrancy),
      (AdjConscientiousnessTag, adjectives.conscientiousness),
      (AdjCivilityTag, adjectives.civility),
      (AdjArtificialityTag, adjectives.artificiality),
      (AdjNeuroticismTag, adjectives.neuroticism),
      (IntVibrancyTag, intensities.vibrancy),
      (IntConscientiousnessTag, intensities.conscientiousness),
      (IntCivilityTag, intensities.civility),
      (IntArtificialityTag, intensities.artificiality),
      (IntNeuroticismTag, intensities.neuroticism),
      (RoleATag, RoleA),
      (RoleBTag, RoleB) ]
  }

  /** The replace chain applied to the template: the twelve replacements, then the context, then the history. */
  function FillTemplate(text: PromptText, intensities: Traits<string>, fullHistory: string): string
  {
    var prompt := ReplaceEach(text.template, Replacements(text.adjectives, intensities));
    ReplaceFirst(ReplaceFirst(prompt, ConversationContextTag, text.context), ConversationHistoryTag, fullHistory)
  }

  function NotFoundMessage(personalityId: Value): string
  {
    "Personality profile '" + ToStr(personalityId) + "' not found"
  }

  /** buildPersonalityPrompt, with the profile looked up by the file's own keys. */
  function BuildPersonalityPrompt(text: PromptText, store: ProfileStore, originalResponse: Value, personalityId: Value, conversationHistory: string): (r: Result<string>)
    ensures r.Err? <==> Lookup(store, ToStr(personalityId)).None?
    ensures r.Err? ==> r.error == NotFoundMessage(personalityId)
  {
    match Lookup(store, ToStr(personalityId))
    case None => Err(NotFoundMessage(personalityId))
    case Some(p) => Ok(FillTemplate(text, IntensityTexts(p), FullHistory(conversationHistory, originalResponse)))
  }

  /** buildPersonalityPrompt exactly as written, inherited members included. */
  function BuildPersonalityPromptAsWritten(text: PromptText, store: ProfileStore, originalResponse: Value, personalityId: Value, conversationHistory: string): (r: Result<string>)
    ensures r.Err? <==> !LookupAsWritten(store, ToStr(personalityId)).Truthy()
  {
    var fullHistory := FullHistory(conversationHistory, originalResponse);
    match LookupAsWritten(store, ToStr(personalityId))
    case Own(p) => Ok(FillTemplate(text, IntensityTexts(p), fullHistory))
    case Inherited(_) => Ok(FillTemplate(text, UndefinedIntensities, fullHistory))
    case _ => Err(NotFoundMessage(personalityId))
  }

  /**
   * With an id that names no profile, "constructor", the code as written
   * builds a prompt whose intensities all read "undefined" instead of
   * reporting the profile as not found.
   */
  lemma InheritedIdBuildsPrompt(text: PromptText, store: ProfileStore, originalResponse: Value, conversationHistory: string)
    requires "constructor" !in store.entries
    ensures BuildPersonalityPromptAsWritten(text, store, originalResponse, Str("constructor"), conversationHistory)
         == Ok(FillTemplate(text, UndefinedIntensities, FullHistory(conversationHistory, originalResponse)))
    ensures BuildPersonalityPrompt(text, store, originalResponse, Str("constructor"), conversationHistory)
         == Err(NotFoundMessage(Str("constructor")))
  {
  }

  /** On every id that is not an inherited member name, the corrected builder is the code as written. */
  lemma BuildAgreesOffPrototype(text: PromptText, store: ProfileStore, originalResponse: Value, personalityId: Value, conversationHistory: string)
    requires ToStr(personalityId) !in ObjectPrototypeKeys || ToStr(personalityId) in store.entries
    ensures BuildPersonalityPrompt(text, store, originalResponse, personalityId, conversationHistory)
         == BuildPersonalityPromptAsWritten(text, store, originalResponse, personalityId, conversationHistory)
  {
    LookupAgrees(store, ToStr(personalityId));
  }

  // ---------------------------------------------------------------------
  // What the prompt looks like
  // ---------------------------------------------------------------------

  /** The values the first twelve replacements insert, in template order. */
  function Fills(text: PromptText, intensities: Traits<string>): (f: seq<string>)
    ensures |f| == 12
  {
    var a, n := text.adjectives, intensities;
    [a.vibrancy, a.conscientiousness, a.civility, a.artificiality, a.neuroticism,
     n.vibrancy, n.conscientiousness, n.civility, n.artificiality, n.neuroticism,
     RoleA, RoleB]
  }

  /** Slot contents once the first 14 placeholders are handled: the second `<ROLE_B>` stays. */
  function HeadSlots(text: PromptText, intensities: Traits<string>): (s: seq<string>)
    ensures |s| == 14
  {
    Fills(text, intensities) + [RoleBTag, text.context]
  }

  /** Everything the prompt holds in front of the conversation history. */
  function PromptHead(texts: seq<string>, text: PromptText, intensities: Traits<string>): string
    requires |texts| == 15
  {
    Interleave(texts[..14], HeadSlots(text, intensities)) + texts[14]
  }

  /** The template's slots after the first `k` replacements. */
  function Stage(text: PromptText, intensities: Traits<string>, k: nat): seq<string>
    requires k <= 12
  {
    Fills(text, intensities)[..k] + Placeholders[k..]
  }

  lemma ShortLiteralsPlain()
    ensures Plain(RoleA) && Plain(RoleB)
    ensures forall i | 0 <= i < 5 :: Plain(UndefinedIntensities.Values()[i])
    ensures '<' !in RoleBTag[1..] && RoleBTag[1] == 'R'
    ensures forall k | 0 <= k < 15 :: |Placeholders[k]| >= 2 && Placeholders[k][0] == '<'
  {
  }

  lemma FillsPlain(text: PromptText, texts: seq<string>, intensities: Traits<string>)
    requires LaidOut(text, texts)
    requires forall i | 0 <= i < 5 :: Plain(intensities.Values()[i])
    ensures forall i | 0 <= i < 12 :: Plain(Fills(text, intensities)[i])
  {
    var f := Fills(text, intensities);
    ShortLiteralsPlain();
    forall i | 0 <= i < 12 ensures Plain(f[i]) {
      if i < 5 {
        assert f[i] == text.adjectives.Values()[i];
      } else if i < 10 {
        assert f[i] == intensities.Values()[i - 5];
      }
    }
  }

  /** One of the first twelve replacements fills exactly its own slot. */
  lemma FillStep(text: PromptText, texts: seq<string>, intensities: Traits<string>, k: nat)
    requires LaidOut(text, texts) && k < 12
    requires forall i | 0 <= i < 12 :: Plain(Fills(text, intensities)[i])
    ensures ReplaceFirst(Interleave(texts, Stage(text, intensities, k)), Placeholders[k], Fills(text, intensities)[k])
         == Interleave(texts, Stage(text, intensities, k + 1))
  {
    var f := Fills(text, intensities);
    var s := Stage(text, intensities, k);
    assert s[k] == Placeholders[k];
    ShortLiteralsPlain();
    var c := Placeholders[k][1];
    forall j | 0 <= j <= k ensures Guarded(texts[j], c) {
      PlainGuarded(texts[j], c);
    }
    forall j | 0 <= j < k ensures Guarded(s[j], c) {
      assert s[j] == f[j];
      PlainGuarded(s[j], c);
    }
    FillSlot(texts, s, k, f[k]);
    assert s[k := f[k]] == Stage(text, intensities, k + 1);
  }

  /**
   * The prompt is the template with each adjective list, intensity, role and
   * the context line in its slot, the second `<ROLE_B>` left in place, and
   * the history inserted last, after `$`-pattern expansion.
   */
  lemma FillTemplateLayout(text: PromptText, texts: seq<string>, intensities: Traits<string>, fullHistory: string)
    requires LaidOut(text, texts)
    requires forall i | 0 <= i < 5 :: Plain(intensities.Values()[i])
    ensures FillTemplate(text, intensities, fullHistory)
         == PromptHead(texts, text, intensities) + Expand(fullHistory, ConversationHistoryTag, PromptHead(texts, text, intensities), "")
  {
    FillsPlain(text, texts, intensities);
    assert Stage(text, intensities, 0) == Placeholders;
    FillSteps(text, texts, intensities, 0);
    assert Replacements(text.adjectives, intensities)[0..] == Replacements(text.adjectives, intensities);
    ContextAndHistory(text, texts, intensities, fullHistory);
  }

  /** The replacements from the k-th on fill the slots from the k-th on. */
  lemma {:induction false} FillSteps(text: PromptText, texts: seq<string>, intensities: Traits<string>, k: nat)
    requires LaidOut(text, texts) && k <= 12
    requires forall i | 0 <= i < 12 :: Plain(Fills(text, intensities)[i])
    ensures ReplaceEach(Interleave(texts, Stage(text, intensities, k)), Replacements(text.adjectives, intensities)[k..])
         == Interleave(texts, Stage(text, intensities, 12))
    decreases 12 - k
  {
    var r := Replacements(text.adjectives, intensities);
    if k < 12 {
      assert r[k] == (Placeholders[k], Fills(text, intensities)[k]);
      FillStep(text, texts, intensities, k);
      assert r[k..][1..] == r[k + 1..];
      FillSteps(text, texts, intensities, k + 1);
    } else {
      assert r[k..] == [];
    }
  }

  /** The slots once the context line is in: all but the second `<ROLE_B>` and the history are filled. */
  function ContextStage(text: PromptText, intensities: Traits<string>): seq<string>
  {
    Fills(text, intensities) + [RoleBTag, text.context, ConversationHistoryTag]
  }

  /** The last two replacements: the context line, then the history. */
  lemma ContextAndHistory(text: PromptText, texts: seq<string>, intensities: Traits<string>, fullHistory: string)
    requires LaidOut(text, texts)
    requires forall i | 0 <= i < 12 :: Plain(Fills(text, intensities)[i])
    ensures ReplaceFirst(ReplaceFirst(Interleave(texts, Stage(text, intensities, 12)), ConversationContextTag, text.context),
                         ConversationHistoryTag, fullHistory)
         == PromptHead(texts, text, intensities) + Expand(fullHistory, ConversationHistoryTag, PromptHead(texts, text, intensities), "")
  {
    ContextStep(text, texts, intensities);
    HistoryStep(text, texts, intensities, fullHistory);
  }

  lemma ContextStep(text: PromptText, texts: seq<string>, intensities: Traits<string>)
    requires LaidOut(text, texts)
    requires forall i | 0 <= i < 12 :: Plain(Fills(text, intensities)[i])
    ensures ReplaceFirst(Interleave(texts, Stage(text, intensities, 12)), ConversationContextTag, text.context)
         == Interleave(texts, ContextStage(text, intensities))
  {
    var f := Fills(text, intensities);
    var s12 := Stage(text, intensities, 12);
    ShortLiteralsPlain();
    assert s12 == f + [RoleBTag, ConversationContextTag, ConversationHistoryTag];
    forall j | 0 <= j < 15 ensures Guarded(texts[j], 'C') {
      PlainGuarded(texts[j], 'C');
    }
    forall j | 0 <= j < 13 ensures Guarded(s12[j], 'C') {
      if j < 12 {
        PlainGuarded(s12[j], 'C');
      }
    }
    FillSlot(texts, s12, 13, text.context);
    assert s12[13 := text.context] == ContextStage(text, intensities);
  }

  lemma HistoryStep(text: PromptText, texts: seq<string>, intensities: Traits<string>, fullHistory: string)
    requires LaidOut(text, texts)
    requires forall i | 0 <= i < 12 :: Plain(Fills(text, intensities)[i])
    ensures ReplaceFirst(Interleave(texts, ContextStage(text, intensities)), ConversationHistoryTag, fullHistory)
         == PromptHead(texts, text, intensities) + Expand(fullHistory, ConversationHistoryTag, PromptHead(texts, text, intensities), "")
  {
    var s13 := ContextStage(text, intensities);
    ShortLiteralsPlain();
    forall j | 0 <= j < 15 ensures Guarded(texts[j], 'C') {
      PlainGuarded(texts[j], 'C');
    }
    forall j | 0 <= j < 14 ensures Guarded(s13[j], 'C') {
      if j != 12 {
        PlainGuarded(s13[j], 'C');
      }
    }
    FillSlot(texts, s13, 14, fullHistory);
    var head := PromptHead(texts, text, intensities);
    assert s13[..14] == HeadSlots(text, intensities);
    assert Before(texts, s13, 14) == head;
    assert After(texts, s13, 14) == "";
    var e := Expand(fullHistory, ConversationHistoryTag, head, "");
    InterleaveSplit(texts, s13[14 := e], 14);
    assert s13[14 := e][..14] == s13[..14];
  }

  // ---------------------------------------------------------------------
  // buildPersonalityPrompt, stated on the result
  // ---------------------------------------------------------------------

  /**
   * For a known id the prompt is the template with every slot but the
   * second `<ROLE_B>` filled: the adjective lists, the profile's
   * intensities, "Student", "AI Assistant", the context line, and finally
   * the history followed by the original response, in which `$` patterns
   * are expanded.
   */
  lemma PromptLayout(text: PromptText, texts: seq<string>, store: ProfileStore, originalResponse: Value, personalityId: Value, conversationHistory: string)
    requires LaidOut(text, texts)
    requires Lookup(store, ToStr(personalityId)).Some?
    ensures var head := PromptHead(texts, text, IntensityTexts(Lookup(store, ToStr(personalityId)).value));
      BuildPersonalityPrompt(text, store, originalResponse, personalityId, conversationHistory)
      == Ok(head + Expand(FullHistory(conversationHistory, originalResponse), ConversationHistoryTag, head, ""))
  {
    var ints := IntensityTexts(Lookup(store, ToStr(personalityId)).value);
    FillTemplateLayout(text, texts, ints, FullHistory(conversationHistory, originalResponse));
  }

  /** Without `$` in the history or the response, the prompt ends with exactly the history, a line break, "AI Assistant: " and the response. */
  lemma HistoryInsertedVerbatim(text: PromptText, texts: seq<string>, store: ProfileStore, originalResponse: Value, personalityId: Value, conversationHistory: string)
    requires LaidOut(text, texts)
    requires Lookup(store, ToStr(personalityId)).Some?
    requires '$' !in conversationHistory && '$' !in ToStr(originalResponse)
    ensures BuildPersonalityPrompt(text, store, originalResponse, personalityId, conversationHistory)
         == Ok(PromptHead(texts, text, IntensityTexts(Lookup(store, ToStr(personalityId)).value))
               + FullHistory(conversationHistory, originalResponse))
  {
    PromptLayout(text, texts, store, originalResponse, personalityId, conversationHistory);
    var h := FullHistory(conversationHistory, originalResponse);
    SpeakerPlain();
    assert '$' !in h;
  }

  /** The speaker prefix put in front of the original response. */
  lemma SpeakerPlain()
    ensures '$' !in "\nAI Assistant: "
  {
  }

  /**
   * The history is passed to `replace` as a replacement text, so a response
   * of "$&" is not inserted as written: it comes out as the placeholder
   * `<CONVERSATION_HISTORY>` itself.
   */
  lemma DollarPatternInResponse(text: PromptText, texts: seq<string>, store: ProfileStore, personalityId: Value, conversationHistory: string)
    requires LaidOut(text, texts)
    requires Lookup(store, ToStr(personalityId)).Some?
    requires '$' !in conversationHistory
    ensures BuildPersonalityPrompt(text, store, Str("$&"), personalityId, conversationHistory)
         == Ok(PromptHead(texts, text, IntensityTexts(Lookup(store, ToStr(personalityId)).value))
               + FullHistory(conversationHistory, Str(ConversationHistoryTag)))
  {
    var head := PromptHead(texts, text, IntensityTexts(Lookup(store, ToStr(personalityId)).value));
    PromptLayout(text, texts, store, Str("$&"), personalityId, conversationHistory);
    var prefix := conversationHistory + "\nAI Assistant: ";
    SpeakerPlain();
    assert '$' !in prefix;
    ExpandPlainPrefix(prefix, "$&", ConversationHistoryTag, head, "");
    ExpandMatched(ConversationHistoryTag, head, "");
  }

  /** Only the first `<ROLE_B>` is replaced: the placeholder is still in the prompt, at the returned index. */
  lemma SecondRoleBRemains(text: PromptText, texts: seq<string>, store: ProfileStore, originalResponse: Value, personalityId: Value, conversationHistory: string)
    returns (k: nat)
    requires LaidOut(text, texts)
    requires Lookup(store, ToStr(personalityId)).Some?
    ensures BuildPersonalityPrompt(text, store, originalResponse, personalityId, conversationHistory).Ok?
    ensures MatchAt(BuildPersonalityPrompt(text, store, originalResponse, personalityId, conversationHistory).value, RoleBTag, k)
  {
    var ints := IntensityTexts(Lookup(store, ToStr(personalityId)).value);
    PromptLayout(text, texts, store, originalResponse, personalityId, conversationHistory);
    var head := PromptHead(texts, text, ints);
    var tail := Expand(FullHistory(conversationHistory, originalResponse), ConversationHistoryTag, head, "");
    k := HeadHoldsRoleB(texts, text, ints);
    MatchPrefix(head, tail, RoleBTag, k);
  }

  /** The prompt head holds the second `<ROLE_B>`, unreplaced. */
  lemma HeadHoldsRoleB(texts: seq<string>, text: PromptText, intensities: Traits<string>) returns (k: nat)
    requires |texts| == 15
    ensures MatchAt(PromptHead(texts, text, intensities), RoleBTag, k)
  {
    var slots := HeadSlots(text, intensities);
    var t := texts[..14];
    InterleaveSplit(t, slots, 12);
    var x, y := Before(t, slots, 12), After(t, slots, 12);
    assert slots[12] == RoleBTag;
    var head := PromptHead(texts, text, intensities);
    assert head == x + RoleBTag + (y + texts[14]);
    k := |x|;
    assert head[k..k + |RoleBTag|] == RoleBTag;
  }

  /** A match inside a prefix is a match in the whole string. */
  lemma MatchPrefix(a: string, b: string, p: string, k: nat)
    requires MatchAt(a, p, k)
    ensures MatchAt(a + b, p, k)
  {
    assert (a + b)[k..k + |p|] == a[k..k + |p|];
  }

  // ---------------------------------------------------------------------
  // transformResponse
  // ---------------------------------------------------------------------

  datatype ChatMessage = ChatMessage(role: string, content: string)

  /** A chat-completion request; the temperature is given in tenths. */
  datatype ChatRequest = ChatRequest(model: string, messages: seq<ChatMessage>, temperatureTenths: nat, maxTokens: nat)

  /** The single-message request the engine sends: model gpt-4o, temperature 0.7, at most 1000 tokens. */
  function RewriteRequest(prompt: string): ChatRequest
  {
    ChatRequest("gpt-4o", [ChatMessage("user", prompt)], 7, 1000)
  }

  /**
   * What the engine hands back, and the completion request it sent, if any.
   */
  datatype Transformation = Transformation(response: Value, request: Option<ChatRequest>)

  /**
   * `completion.choices[0].message.content.trim()`: None when the call
   * failed, there is no first choice, or its content is not a string (each of
   * which throws).
   */
  function FirstChoiceText(completion: Result<seq<Value>>): (r: Option<string>)
    ensures r.Some? <==> completion.Ok? && |completion.value| > 0 && completion.value[0].Str?
  {
    match completion
    case Err(_) => None
    case Ok(choices) => if |choices| > 0 && choices[0].Str? then Some(Trim(choices[0].s)) else None
  }

  /**
   * transformResponse: build the prompt, send it, return the trimmed text
   * of the first choice; any error on the way returns the original
   * response. `complete` is the completion service; it yields the message
   * content of each returned choice.
   */
  function TransformResponse(text: PromptText, store: ProfileStore, complete: ChatRequest -> Result<seq<Value>>,
                             originalResponse: Value, personalityId: Value, conversationHistory: string): (t: Transformation)
    ensures t.request.Some? <==> Lookup(store, ToStr(personalityId)).Some?
    ensures t.request.Some? ==>
      t.request.value == RewriteRequest(BuildPersonalityPrompt(text, store, originalResponse, personalityId, conversationHistory).value)
    ensures t.request.Some? && FirstChoiceText(complete(t.request.value)).Some? ==>
      t.response == Str(FirstChoiceText(complete(t.request.value)).value)
    ensures t.request.None? || FirstChoiceText(complete(t.request.value)).None? ==> t.response == originalResponse
  {
    match BuildPersonalityPrompt(text, store, originalResponse, personalityId, conversationHistory)
    case Err(_) => Transformation(originalResponse, None)
    case Ok(prompt) =>
      var request := RewriteRequest(prompt);
      match FirstChoiceText(complete(request))
      case None => Transformation(originalResponse, Some(request))
      case Some(rewritten) => Transformation(Str(rewritten), Some(request))
  }

  /** The response is the original one, or a text that trimming leaves as it is. */
  lemma RewriteIsTrimmedOnce(text: PromptText, store: ProfileStore, complete: ChatRequest -> Result<seq<Value>>,
                             originalResponse: Value, personalityId: Value, conversationHistory: string)
    ensures var t := TransformResponse(text, store, complete, originalResponse, personalityId, conversationHistory);
      t.response == originalResponse || (t.request.Some? && FirstChoiceText(complete(t.request.value)) == Some(Trim(ToStr(t.response))))
  {
    var t := TransformResponse(text, store, complete, originalResponse, personalityId, conversationHistory);
    if t.response != originalResponse {
      TrimIdempotent(complete(t.request.value).value[0].s);
    }
  }

  /** A rewritten response never starts or ends with whitespace. */
  lemma RewrittenIsTrimmed(text: PromptText, store: ProfileStore, complete: ChatRequest -> Result<seq<Value>>,
                           originalResponse: Value, personalityId: Value, conversationHistory: string)
    requires TransformResponse(text, store, complete, originalResponse, personalityId, conversationHistory).response != originalResponse
    ensures var r := TransformResponse(text, store, complete, originalResponse, personalityId, conversationHistory).response;
      r.Str? && (|r.s| > 0 ==> !IsWhitespace(r.s[0]) && !IsWhitespace(r.s[|r.s| - 1]))
  {
    var t := TransformResponse(text, store, complete, originalResponse, personalityId, conversationHistory);
    var choice := FirstChoiceText(complete(t.request.value));
    assert choice.Some? && t.response == Str(choice.value);
    var c := complete(t.request.value).value[0].s;
    assert choice.value == Trim(c);
    var i, j := TrimIsCore(c);
  }

  // ---------------------------------------------------------------------
  // getPersonalities, getPersonality
  // ---------------------------------------------------------------------

  datatype Summary = Summary(id: string, name: string, description: string)

  /** The summaries of `ids`, in order; None when an entry is `null` (reading its name throws). */
  function Summaries(store: ProfileStore, ids: seq<string>): (r: Option<seq<Summary>>)
    requires forall i | 0 <= i < |ids| :: ids[i] in store.entries
    ensures r.Some? <==> forall i | 0 <= i < |ids| :: store.entries[ids[i]].Some?
    ensures r.Some? ==> |r.value| == |ids|
    ensures r.Some? ==> forall i | 0 <= i < |ids| ::
      r.value[i] == Summary(ids[i], store.entries[ids[i]].value.name, store.entries[ids[i]].value.description)
  {
    if ids == [] then Some([])
    else
      match store.entries[ids[0]]
      case None => None
      case Some(p) =>
        match Summaries(store, ids[1..])
        case None => None
        case Some(rest) => Some([Summary(ids[0], p.name, p.description)] + rest)
  }

  /** getPersonalities: one summary per profile key, in key order. */
  function GetPersonalities(store: ProfileStore): (r: Option<seq<Summary>>)
    requires store.Valid()
  {
    Summaries(store, store.ids)
  }

  /** getPersonality: the profile stored under the id, or None (`null`). */
  function GetPersonality(store: ProfileStore, personalityId: Value): (r: Option<Profile>)
    ensures r.Some? <==> ToStr(personalityId) in store.entries && store.entries[ToStr(personalityId)].Some?
    ensures r.Some? ==> store.entries[ToStr(personalityId)] == r
  {
    Lookup(store, ToStr(personalityId))
  }

  /**
   * getPersonality finds a profile exactly when buildPersonalityPrompt does,
   * and the prompt is built from that profile's intensities.
   */
  lemma GetPersonalityMatchesBuild(text: PromptText, store: ProfileStore, originalResponse: Value, personalityId: Value, conversationHistory: string)
    ensures GetPersonality(store, personalityId).Some?
        <==> BuildPersonalityPrompt(text, store, originalResponse, personalityId, conversationHistory).Ok?
    ensures GetPersonality(store, personalityId).Some? ==>
      BuildPersonalityPrompt(text, store, originalResponse, personalityId, conversationHistory)
      == Ok(FillTemplate(text, IntensityTexts(GetPersonality(store, personalityId).value), FullHistory(conversationHistory, originalResponse)))
  {
  }

  /**
   * The listing and the single lookup agree: every listed summary is the
   * name and description of the profile getPersonality returns for its id,
   * and the ids are exactly the store's keys, each once.
   */
  lemma ListingMatchesLookup(store: ProfileStore)
    requires store.Valid()
    requires GetPersonalities(store).Some?
    ensures var l := GetPersonalities(store).value;
      |l| == |store.ids|
      && (forall i | 0 <= i < |l| :: l[i].id == store.ids[i])
      && (forall i | 0 <= i < |l| ::
            GetPersonality(store, Str(l[i].id)).Some?
            && GetPersonality(store, Str(l[i].id)).value.name == l[i].name
            && GetPersonality(store, Str(l[i].id)).value.description == l[i].description)
  {
  }
}
