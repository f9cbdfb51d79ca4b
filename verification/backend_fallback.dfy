/** The fallback semantic classifier of the no-cache backend
    (`get_semantic_fallback` in corbas_backend_NOCACHE.py): five word lists
    tried in a fixed order on the lower-cased lemma, then a table keyed by
    the coarse part of speech. */
module BackendFallback {
  import opened Text

  const EmotionPos: set<string> := {"happy", "joy", "delighted", "pleased", "excited", "love", "wonderful"}
  const EmotionNeg: set<string> := {"sad", "angry", "fear", "hate", "anxious", "worried", "upset"}
  const Movement: set<string> := {"go", "come", "move", "walk", "run", "travel", "arrive", "leave"}
  const Speech: set<string> := {"say", "tell", "speak", "talk", "communicate", "discuss", "ask"}
  const Thought: set<string> := {"think", "believe", "know", "understand", "consider", "realize"}

  /** The codes of the five lexical rules. */
  const LexicalCodes: set<string> := {"E1.1+", "E1.1-", "M1", "Q2.2", "X2.1"}

  /** The codes of the part-of-speech table. */
  const PosCodes: set<string> := {"O2", "Z3", "A3+", "A5", "A13", "N1", "Z5", "Z8", "Z99"}

  /** The parts of speech that have an entry of their own in the default table. */
  const TabledPos: set<string> := {"NOUN", "PROPN", "VERB", "ADJ", "ADV", "NUM", "ADP", "DET", "PRON"}

  /** Some word list contains the (already lower-cased) lemma. */
  predicate InWordList(baseForm: string) {
    baseForm in EmotionPos || baseForm in EmotionNeg || baseForm in Movement || baseForm in Speech || baseForm in Thought
  }

  /** The code for a lemma that no word list contains: always one of the
      nine table codes. */
  function PosDefault(pos: string): (code: string)
    ensures code in PosCodes
  {
    if pos == "NOUN" then "O2"
    else if pos == "PROPN" then "Z3"
    else if pos == "VERB" then "A3+"
    else if pos == "ADJ" then "A5"
    else if pos == "ADV" then "A13"
    else if pos == "NUM" then "N1"
    else if pos in ["ADP", "DET"] then "Z5"
    else if pos == "PRON" then "Z8"
    else "Z99"
  }

  /** The semantic-domain code of a token with this lemma and coarse part of
      speech; the first word list that holds the lower-cased lemma decides.
      The code is never empty. */
  function Classify(baseForm: string, pos: string): (code: string)
    ensures code != ""
  {
    var l := Lower(baseForm);
    if l in EmotionPos then "E1.1+"
    else if l in EmotionNeg then "E1.1-"
    else if l in Movement then "M1"
    else if l in Speech then "Q2.2"
    else if l in Thought then "X2.1"
    else PosDefault(pos)
  }

  /** The default table entry by entry; every other part of speech gets `Z99`. */
  lemma PosDefaultTable(pos: string)
    ensures PosDefault("NOUN") == "O2" && PosDefault("PROPN") == "Z3"
    ensures PosDefault("VERB") == "A3+" && PosDefault("ADJ") == "A5"
    ensures PosDefault("ADV") == "A13" && PosDefault("NUM") == "N1"
    ensures PosDefault("ADP") == "Z5" && PosDefault("DET") == "Z5"
    ensures PosDefault("PRON") == "Z8"
    ensures PosDefault(pos) in PosCodes
    ensures pos !in TabledPos <==> PosDefault(pos) == "Z99"
  {
  }

  /** The classifier returns a code from a fixed set of fourteen, and a
      lexical one exactly when the lower-cased lemma is on some word list. */
  lemma ClassifyCodomain(baseForm: string, pos: string)
    ensures Classify(baseForm, pos) in LexicalCodes + PosCodes
    ensures InWordList(Lower(baseForm)) <==> Classify(baseForm, pos) in LexicalCodes
  {
    PosDefaultTable(pos);
  }

  /** Only the lower-cased lemma is consulted. */
  lemma CaseInsensitive(baseForm: string, pos: string)
    ensures Classify(baseForm, pos) == Classify(Lower(baseForm), pos)
  {
    LowerIdempotent(baseForm);
  }

  /** A lemma on some word list gets the same code under every part of
      speech: the lexical rules take priority over the default table. */
  lemma LexicalRulesIgnorePos(baseForm: string, pos1: string, pos2: string)
    requires InWordList(Lower(baseForm))
    ensures Classify(baseForm, pos1) == Classify(baseForm, pos2)
  {
  }

  /** A lemma on no word list gets the part-of-speech default. */
  lemma UnlistedGetsPosDefault(baseForm: string, pos: string)
    requires !InWordList(Lower(baseForm))
    ensures Classify(baseForm, pos) == PosDefault(pos)
  {
  }

  /** The empty lemma is on no word list. */
  lemma EmptyLemmaUnlisted()
    ensures Lower("") == "" && !InWordList("")
  {
  }

  // Pairwise disjointness of the five word lists, split into pieces small
  // enough for the solver; WordListsDisjoint combines them.
  lemma EmotionPosVersusNegAndMovement()
    ensures EmotionPos !! EmotionNeg && EmotionPos !! Movement
  {
  }

  lemma EmotionPosVersusSpeechAndThought()
    ensures EmotionPos !! Speech && EmotionPos !! Thought
  {
  }

  lemma EmotionNegVersusMovementAndSpeech()
    ensures EmotionNeg !! Movement && EmotionNeg !! Speech
  {
  }

  lemma ThoughtVersusEmotionNegAndSpeech()
    ensures EmotionNeg !! Thought && Speech !! Thought
  {
  }

  lemma MovementVersusSpeechAndThought()
    ensures Movement !! Speech && Movement !! Thought
  {
  }

  /** The word lists are pairwise disjoint, so the order of the rules never
      has to break a tie. */
  lemma WordListsDisjoint()
    ensures EmotionPos !! EmotionNeg && EmotionPos !! Movement && EmotionPos !! Speech && EmotionPos !! Thought
    ensures EmotionNeg !! Movement && EmotionNeg !! Speech && EmotionNeg !! Thought
    ensures Movement !! Speech && Movement !! Thought
    ensures Speech !! Thought
  {
    EmotionPosVersusNegAndMovement();
    EmotionPosVersusSpeechAndThought();
    EmotionNegVersusMovementAndSpeech();
    ThoughtVersusEmotionNegAndSpeech();
    MovementVersusSpeechAndThought();
  }

  /** Every word on a list gets that list's code, whatever its case and part
      of speech; in particular the emotion lists decide for their words. */
  lemma EachListGetsItsCode(baseForm: string, pos: string)
    ensures Lower(baseForm) in EmotionPos ==> Classify(baseForm, pos) == "E1.1+"
    ensures Lower(baseForm) in EmotionNeg ==> Classify(baseForm, pos) == "E1.1-"
    ensures Lower(baseForm) in Movement ==> Classify(baseForm, pos) == "M1"
    ensures Lower(baseForm) in Speech ==> Classify(baseForm, pos) == "Q2.2"
    ensures Lower(baseForm) in Thought ==> Classify(baseForm, pos) == "X2.1"
  {
    WordListsDisjoint();
  }

  /** Concrete cases: lexical rules win over the part of speech, and upper
      case in the lemma does not matter. */
  lemma Examples()
    ensures Classify("run", "NOUN") == "M1"
    ensures Classify("say", "ADJ") == "Q2.2"
    ensures Classify("Happy", "ADJ") == "E1.1+"
    ensures Classify("xyzzy", "NOUN") == "O2"
    ensures Classify("xyzzy", "PUNCT") == "Z99"
  {
    LowerOfLower("run");
    EachListGetsItsCode("run", "NOUN");
    LowerOfLower("say");
    EachListGetsItsCode("say", "ADJ");
    LowerOfLower("happy");
    assert Lower("Happy") == "happy";
    EachListGetsItsCode("Happy", "ADJ");
    LowerOfLower("xyzzy");
  }

  /** The Kelvin sign folds to `k` as it does under `str.lower()`, so a lemma
      spelled with it still meets the thought list. */
  lemma KelvinSignExample()
    ensures Classify("\U{212A}now", "VERB") == "X2.1"
  {
    LowerOfLower("know");
    assert Lower("\U{212A}now") == "know";
    EachListGetsItsCode("\U{212A}now", "VERB");
  }

  /** A witness for each lexical code, whatever the part of speech. */
  lemma LexicalCodesReachable(pos: string)
    ensures Classify("happy", pos) == "E1.1+" && Classify("sad", pos) == "E1.1-"
    ensures Classify("go", pos) == "M1" && Classify("say", pos) == "Q2.2"
    ensures Classify("think", pos) == "X2.1"
  {
    LowerOfLower("happy");
    EachListGetsItsCode("happy", pos);
    LowerOfLower("sad");
    EachListGetsItsCode("sad", pos);
    LowerOfLower("go");
    EachListGetsItsCode("go", pos);
    LowerOfLower("say");
    EachListGetsItsCode("say", pos);
    LowerOfLower("think");
    EachListGetsItsCode("think", pos);
  }

  /** A witness for each code of the default table. */
  lemma PosCodesReachable()
    ensures Classify("", "NOUN") == "O2" && Classify("", "PROPN") == "Z3"
    ensures Classify("", "VERB") == "A3+" && Classify("", "ADJ") == "A5"
    ensures Classify("", "ADV") == "A13" && Classify("", "NUM") == "N1"
    ensures Classify("", "DET") == "Z5" && Classify("", "PRON") == "Z8"
    ensures Classify("", "X") == "Z99"
  {
    PosDefaultTable("X");
    EmptyLemmaUnlisted();
    forall pos | pos in TabledPos + {"X"}
      ensures Classify("", pos) == PosDefault(pos)
    {
      UnlistedGetsPosDefault("", pos);
    }
  }
}
