/** How the two fallback classifiers relate.  Each word list of the
    no-cache backend is contained in the list of the same rule in app.py,
    and app.py adds three rules after them, so the two agree everywhere
    except on the words only app.py lists. */
module Variants {
  import opened Text
  import opened Annotation
  import B = BackendFallback
  import A = AppFallback
  import BackendAnalyze
  import AppAnalyze

  /** Each backend word list is a subset of app.py's list for the same rule. */
  lemma WordListsNested()
    ensures B.EmotionPos <= A.EmotionPositive
    ensures B.EmotionNeg <= A.EmotionNegative
    ensures B.Movement <= A.MovementVerbs
    ensures B.Speech <= A.SpeechVerbs
    ensures B.Thought <= A.ThoughtVerbs
  {
  }

  /** The two default tables are the same table. */
  lemma PosDefaultsAgree(pos: string)
    ensures B.PosDefault(pos) == A.PosDefault(pos)
  {
  }

  /** Whenever the backend classifier matches a lexical rule, app.py's
      classifier returns the same code. */
  lemma BackendRuleAgrees(baseForm: string, pos: string)
    requires B.InWordList(Lower(baseForm))
    ensures A.Classify(baseForm, pos) == B.Classify(baseForm, pos)
  {
    WordListsNested();
    A.OnlyOverlapIsWonderful();
  }

  /** A lemma on none of app.py's lists gets the same part-of-speech
      default from both classifiers. */
  lemma UnlistedAgrees(baseForm: string, pos: string)
    requires !A.InWordList(Lower(baseForm))
    ensures A.Classify(baseForm, pos) == B.Classify(baseForm, pos) == A.PosDefault(pos)
  {
    WordListsNested();
    PosDefaultsAgree(pos);
  }

  /** The classifiers disagree exactly on the lemmas that only app.py lists. */
  lemma DisagreeExactlyOnAppOnlyWords(baseForm: string, pos: string)
    ensures A.Classify(baseForm, pos) != B.Classify(baseForm, pos)
        <==> A.InWordList(Lower(baseForm)) && !B.InWordList(Lower(baseForm))
  {
    var l := Lower(baseForm);
    if B.InWordList(l) {
      BackendRuleAgrees(baseForm, pos);
    } else if !A.InWordList(l) {
      UnlistedAgrees(baseForm, pos);
    }
  }

  /** What app.py adds to the backend's lists: one word to each of four
      lists, none to the positive-emotion list. */
  lemma ListDifferences()
    ensures A.EmotionPositive == B.EmotionPos
    ensures A.EmotionNegative - B.EmotionNeg == {"depressed"}
    ensures A.MovementVerbs - B.Movement == {"enter"}
    ensures A.SpeechVerbs - B.Speech == {"mention"}
    ensures A.ThoughtVerbs - B.Thought == {"remember"}
  {
  }

  /** The words only app.py lists: one more per verb list and the negative
      emotion list, and its adjective and time lists except `wonderful`. */
  lemma AppOnlyWords(w: string)
    ensures (A.InWordList(w) && !B.InWordList(w))
        <==> w in {"depressed", "enter", "mention", "remember"} + (A.PositiveAdj - {"wonderful"}) + A.NegativeAdj + A.TimeWords
  {
    ListDifferences();
    WordListsNested();
    A.OnlyOverlapIsWonderful();
  }

  /** The two `/analyze` handlers choose the same code whenever the tagger
      decides, and otherwise exactly when the two classifiers agree. */
  lemma SemanticsAgree(t: RawToken, hasPymusas: bool)
    ensures UsesTagger(t, hasPymusas) ==> AppAnalyze.Semantic(t, hasPymusas) == BackendAnalyze.Semantic(t, hasPymusas)
    ensures !UsesTagger(t, hasPymusas) ==>
      ((AppAnalyze.Semantic(t, hasPymusas) == BackendAnalyze.Semantic(t, hasPymusas))
       <==> !(A.InWordList(Lower(t.baseForm)) && !B.InWordList(Lower(t.baseForm))))
  {
    DisagreeExactlyOnAppOnlyWords(t.baseForm, t.pos);
  }
}
