/** The fallback semantic classifier of the hosted entry point
    (`get_semantic_fallback` in app.py): eight word lists tried in a fixed
    order on the lower-cased lemma, then a table keyed by the coarse part of
    speech. */
module AppFallback {
  import opened Text

  const EmotionPositive: set<string> := {"happy", "joy", "delighted", "pleased", "excited", "love", "wonderful"}
  const EmotionNegative: set<string> := {"sad", "angry", "fear", "hate", "anxious", "worried", "upset", "depressed"}
  const MovementVerbs: set<string> := {"go", "come", "move", "walk", "run", "travel", "arrive", "leave", "enter"}
  const SpeechVerbs: set<string> := {"say", "tell", "speak", "talk", "communicate", "discuss", "mention", "ask"}
  const ThoughtVerbs: set<string> := {"think", "believe", "know", "understand", "consider", "realize", "remember"}
  const PositiveAdj: set<string> := {"good", "great", "excellent", "wonderful", "amazing", "beautiful", "perfect", "nice"}
  const NegativeAdj: set<string> := {"bad", "poor", "terrible", "awful", "horrible", "ugly", "wrong", "worse"}
  const TimeWords: set<string> := {"today", "tomorrow", "yesterday", "now", "then", "soon", "later", "before", "after"}

  /** The codes of the eight lexical rules. */
  const LexicalCodes: set<string> := {"E1.1+", "E1.1-", "M1", "Q2.2", "X2.1", "A5.1+", "A5.1-", "T1"}

  /** The codes of the part-of-speech table. */
  const PosCodes: set<string> := {"O2", "Z3", "A3+", "A5", "A13", "N1", "Z5", "Z8", "Z99"}

  /** The parts of speech that have an entry of their own in the default table. */
  const TabledPos: set<string> := {"NOUN", "PROPN", "VERB", "ADJ", "ADV", "NUM", "ADP", "DET", "PRON"}

  /** Some word list contains the (already lower-cased) lemma. */
  predicate InWordList(baseForm: string) {
    || baseForm in EmotionPositive || baseForm in EmotionNegative
    || baseForm in MovementVerbs || baseForm in SpeechVerbs || baseForm in ThoughtVerbs
    || baseForm in PositiveAdj || baseForm in NegativeAdj || baseForm in TimeWords
  }

  /** The code for a lemma that no word list contains: always one of the
      nine table codes. */
  function PosDefault(pos: string): (code: string)
    ensures code in PosCodes
  {
    if pos == "NOUN" then "O2"
    else if pos == "PROPN" then "Z3"
    else if pos == "VERB" then "A3+"
    else if pos == "ADJ" then "A5"
    else if pos == "ADV" then "A13"
    else if pos == "NUM" then "N1"
    else if pos == "ADP" then "Z5"
    else if pos == "DET" then "Z5"
    else if pos == "PRON" then "Z8"
    else "Z99"
  }

  /** The semantic-domain code of a token with this lemma and coarse part of
      speech; the first word list that holds the lower-cased lemma decides.
      The code is never empty. */
  function Classify(baseForm: string, pos: string): (code: string)
    ensures code != ""
  {
    var l := Lower(baseForm);
    if l in EmotionPositive then "E1.1+"
    else if l in EmotionNegative then "E1.1-"
    else if l in MovementVerbs then "M1"
    else if l in SpeechVerbs then "Q2.2"
    else if l in ThoughtVerbs then "X2.1"
    else if l in PositiveAdj then "A5.1+"
    else if l in NegativeAdj then "A5.1-"
    else if l in TimeWords then "T1"
    else PosDefault(pos)
  }

  /** The default table entry by entry (ADP and DET share `Z5`); every
      other part of speech gets `Z99`. */
  lemma PosDefaultTable(pos: string)
    ensures PosDefault("NOUN") == "O2" && PosDefault("PROPN") == "Z3"
    ensures PosDefault("VERB") == "A3+" && PosDefault("ADJ") == "A5"
    ensures PosDefault("ADV") == "A13" && PosDefault("NUM") == "N1"
    ensures PosDefault("ADP") == "Z5" && PosDefault("DET") == "Z5"
    ensures PosDefault("PRON") == "Z8"
    ensures PosDefault(pos) in PosCodes
    ensures pos !in TabledPos <==> PosDefault(pos) == "Z99"
  {
  }

  /** The classifier returns a code from a fixed set of seventeen, and a
      lexical one exactly when the lower-cased lemma is on some word list. */
  lemma ClassifyCodomain(baseForm: string, pos: string)
    ensures Classify(baseForm, pos) in LexicalCodes + PosCodes
    ensures InWordList(Lower(baseForm)) <==> Classify(baseForm, pos) in LexicalCodes
  {
    PosDefaultTable(pos);
  }

  /** Only the lower-cased lemma is consulted. */
  lemma CaseInsensitive(baseForm: string, pos: string)
    ensures Classify(baseForm, pos) == Classify(Lower(baseForm), pos)
  {
    LowerIdempotent(baseForm);
  }

  /** A lemma on some word list gets the same code under every part of
      speech: all eight lexical rules take priority over the default table. */
  lemma LexicalRulesIgnorePos(baseForm: string, pos1: string, pos2: string)
    requires InWordList(Lower(baseForm))
    ensures Classify(baseForm, pos1) == Classify(baseForm, pos2)
  {
  }

  /** A lemma on no word list gets the part-of-speech default. */
  lemma UnlistedGetsPosDefault(baseForm: string, pos: string)
    requires !InWordList(Lower(baseForm))
    ensures Classify(baseForm, pos) == PosDefault(pos)
  {
  }

  /** The empty lemma is on no word list. */
  lemma EmptyLemmaUnlisted()
    ensures Lower("") == "" && !InWordList("")
  {
  }

  /** `wonderful` is on two lists, the positive-emotion list and the
      positive-adjective list. */
  lemma WonderfulOnTwoLists()
    ensures EmotionPositive * PositiveAdj == {"wonderful"}
  {
  }

  // Pairwise disjointness of the eight word lists apart from `wonderful`,
  // split into pieces small enough for the solver; OnlyOverlapIsWonderful
  // combines them.
  lemma EmotionPositiveVersusNegativeAndMovement()
    ensures EmotionPositive !! EmotionNegative && EmotionPositive !! MovementVerbs
  {
  }

  lemma EmotionPositiveVersusSpeechAndThought()
    ensures EmotionPositive !! SpeechVerbs && EmotionPositive !! ThoughtVerbs
  {
  }

  lemma EmotionPositiveVersusNegativeAdjAndTime()
    ensures EmotionPositive !! NegativeAdj && EmotionPositive !! TimeWords
  {
  }

  lemma EmotionNegativeVersusMovementAndSpeech()
    ensures EmotionNegative !! MovementVerbs && EmotionNegative !! SpeechVerbs
  {
  }

  lemma EmotionNegativeVersusThoughtAndPositiveAdj()
    ensures EmotionNegative !! ThoughtVerbs && EmotionNegative !! PositiveAdj
  {
  }

  lemma EmotionNegativeVersusNegativeAdjAndTime()
    ensures EmotionNegative !! NegativeAdj && EmotionNegative !! TimeWords
  {
  }

  lemma MovementVersusSpeechAndThought()
    ensures MovementVerbs !! SpeechVerbs && MovementVerbs !! ThoughtVerbs
  {
  }

  lemma MovementVersusAdjectives()
    ensures MovementVerbs !! PositiveAdj && MovementVerbs !! NegativeAdj
  {
  }

  lemma TimeVersusMovementAndSpeech()
    ensures MovementVerbs !! TimeWords && SpeechVerbs !! TimeWords
  {
  }

  lemma SpeechVersusThoughtAndPositiveAdj()
    ensures SpeechVerbs !! ThoughtVerbs && SpeechVerbs !! PositiveAdj
  {
  }

  lemma NegativeAdjVersusSpeechAndThought()
    ensures SpeechVerbs !! NegativeAdj && ThoughtVerbs !! NegativeAdj
  {
  }

  lemma ThoughtVersusPositiveAdjAndTime()
    ensures ThoughtVerbs !! PositiveAdj && ThoughtVerbs !! TimeWords
  {
  }

  lemma PositiveAdjVersusNegativeAdjAndTime()
    ensures PositiveAdj !! NegativeAdj && PositiveAdj !! TimeWords
  {
  }

  lemma NegativeAdjVersusTime()
    ensures NegativeAdj !! TimeWords
  {
  }

  /** Apart from `wonderful`, no word is on two lists. */
  lemma OnlyOverlapIsWonderful()
    ensures EmotionPositive * PositiveAdj == {"wonderful"}
    ensures EmotionPositive !! EmotionNegative && EmotionPositive !! MovementVerbs
    ensures EmotionPositive !! SpeechVerbs && EmotionPositive !! ThoughtVerbs
    ensures EmotionPositive !! NegativeAdj && EmotionPositive !! TimeWords
    ensures EmotionNegative !! MovementVerbs && EmotionNegative !! SpeechVerbs && EmotionNegative !! ThoughtVerbs
    ensures EmotionNegative !! PositiveAdj && EmotionNegative !! NegativeAdj && EmotionNegative !! TimeWords
    ensures MovementVerbs !! SpeechVerbs && MovementVerbs !! ThoughtVerbs && MovementVerbs !! PositiveAdj
    ensures MovementVerbs !! NegativeAdj && MovementVerbs !! TimeWords
    ensures SpeechVerbs !! ThoughtVerbs && SpeechVerbs !! PositiveAdj && SpeechVerbs !! NegativeAdj
    ensures SpeechVerbs !! TimeWords
    ensures ThoughtVerbs !! PositiveAdj && ThoughtVerbs !! NegativeAdj && ThoughtVerbs !! TimeWords
    ensures PositiveAdj !! NegativeAdj && PositiveAdj !! TimeWords && NegativeAdj !! TimeWords
  {
    WonderfulOnTwoLists();
    EmotionPositiveVersusNegativeAndMovement();
    EmotionPositiveVersusSpeechAndThought();
    EmotionPositiveVersusNegativeAdjAndTime();
    EmotionNegativeVersusMovementAndSpeech();
    EmotionNegativeVersusThoughtAndPositiveAdj();
    EmotionNegativeVersusNegativeAdjAndTime();
    MovementVersusSpeechAndThought();
    MovementVersusAdjectives();
    TimeVersusMovementAndSpeech();
    SpeechVersusThoughtAndPositiveAdj();
    NegativeAdjVersusSpeechAndThought();
    ThoughtVersusPositiveAdjAndTime();
    PositiveAdjVersusNegativeAdjAndTime();
    NegativeAdjVersusTime();
  }

  /** Every word on a list gets that list's code, whatever its case and part
      of speech, except `wonderful`, which the positive-emotion rule takes
      before the positive-adjective rule is tried. */
  lemma EachListGetsItsCode(baseForm: string, pos: string)
    ensures Lower(baseForm) in EmotionPositive ==> Classify(baseForm, pos) == "E1.1+"
    ensures Lower(baseForm) in EmotionNegative ==> Classify(baseForm, pos) == "E1.1-"
    ensures Lower(baseForm) in MovementVerbs ==> Classify(baseForm, pos) == "M1"
    ensures Lower(baseForm) in SpeechVerbs ==> Classify(baseForm, pos) == "Q2.2"
    ensures Lower(baseForm) in ThoughtVerbs ==> Classify(baseForm, pos) == "X2.1"
    ensures Lower(baseForm) in PositiveAdj - {"wonderful"} ==> Classify(baseForm, pos) == "A5.1+"
    ensures Lower(baseForm) in NegativeAdj ==> Classify(baseForm, pos) == "A5.1-"
    ensures Lower(baseForm) in TimeWords ==> Classify(baseForm, pos) == "T1"
  {
    OnlyOverlapIsWonderful();
  }

  /** `wonderful` is always `E1.1+` and never `A5.1+`, whatever its case or
      part of speech: the `A5.1+` rule fires exactly for the other positive
      adjectives. */
  lemma WonderfulIsEmotion(baseForm: string, pos: string)
    ensures Lower(baseForm) == "wonderful" ==> Classify(baseForm, pos) == "E1.1+"
    ensures Classify(baseForm, pos) == "A5.1+" <==> Lower(baseForm) in PositiveAdj - {"wonderful"}
  {
    EachListGetsItsCode(baseForm, pos);
    OnlyOverlapIsWonderful();
  }

  /** Concrete cases: the adjective and time rules beat the default table. */
  lemma Examples()
    ensures Classify("before", "ADP") == "T1"
    ensures Classify("good", "NOUN") == "A5.1+"
    ensures Classify("xyzzy", "DET") == "Z5"
  {
    LowerOfLower("before");
    EachListGetsItsCode("before", "ADP");
    LowerOfLower("good");
    EachListGetsItsCode("good", "NOUN");
    LowerOfLower("xyzzy");
  }

  /** Upper case in the lemma does not matter. */
  lemma CapitalisedExample()
    ensures Classify("Wonderful", "ADJ") == "E1.1+"
  {
    LowerOfLower("wonderful");
    assert Lower("Wonderful") == "wonderful";
    WonderfulIsEmotion("Wonderful", "ADJ");
  }

  /** A witness for each lexical code, whatever the part of speech. */
  lemma LexicalCodesReachable(pos: string)
    ensures Classify("happy", pos) == "E1.1+" && Classify("sad", pos) == "E1.1-"
    ensures Classify("go", pos) == "M1" && Classify("say", pos) == "Q2.2"
    ensures Classify("think", pos) == "X2.1" && Classify("good", pos) == "A5.1+"
    ensures Classify("bad", pos) == "A5.1-" && Classify("now", pos) == "T1"
  {
    LowerOfLower("happy");
    EachListGetsItsCode("happy", pos);
    LowerOfLower("sad");
    EachListGetsItsCode("sad", pos);
    LowerOfLower("go");
    EachListGetsItsCode("go", pos);
    LowerOfLower("say");
    EachListGetsItsCode("say", pos);
    LowerOfLower("think");
    EachListGetsItsCode("think", pos);
    LowerOfLower("good");
    EachListGetsItsCode("good", pos);
    LowerOfLower("bad");
    EachListGetsItsCode("bad", pos);
    LowerOfLower("now");
    EachListGetsItsCode("now", pos);
  }

  /** A witness for each code of the default table. */
  lemma PosCodesReachable()
    ensures Classify("", "NOUN") == "O2" && Classify("", "PROPN") == "Z3"
    ensures Classify("", "VERB") == "A3+" && Classify("", "ADJ") == "A5"
    ensures Classify("", "ADV") == "A13" && Classify("", "NUM") == "N1"
    ensures Classify("", "ADP") == "Z5" && Classify("", "PRON") == "Z8"
    ensures Classify("", "X") == "Z99"
  {
    PosDefaultTable("X");
    EmptyLemmaUnlisted();
    forall pos | pos in TabledPos + {"X"}
      ensures Classify("", pos) == PosDefault(pos)
    {
      UnlistedGetsPosDefault("", pos);
    }
  }
}
