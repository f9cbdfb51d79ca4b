/** The `/analyze` handler of the no-cache backend (`analyze_text` in
    corbas_backend_NOCACHE.py): per-token choice of the semantic code and
    the shape of the response.  The NLP pipeline is the parameter `nlp`. */
module BackendAnalyze {
  import opened Wrappers
  import opened Text
  import opened Annotation
  import BackendFallback

  /** The semantic code of one token: the tagger's verdict when the tagger
      is active and the token carries a tag list, the fallback classifier's
      otherwise.  It is empty only if the tagger itself put an empty code
      first. */
  function Semantic(t: RawToken, hasPymusas: bool): (code: string)
    ensures code == "" ==> UsesTagger(t, hasPymusas) && t.musasTags.value != [] && t.musasTags.value[0] == ""
  {
    if UsesTagger(t, hasPymusas) then TopTag(t.musasTags.value)
    else BackendFallback.Classify(t.baseForm, t.pos)
  }

  /** On the tagger's path the code is the first tag, or `Z99` for an empty
      list, and the lemma and part of speech are never consulted. */
  lemma TaggerPathIgnoresFallback(t: RawToken, u: RawToken, hasPymusas: bool)
    requires UsesTagger(t, hasPymusas) && u.musasTags == t.musasTags
    ensures Semantic(t, hasPymusas) == Semantic(u, hasPymusas)
    ensures t.musasTags.value != [] ==> Semantic(t, hasPymusas) == t.musasTags.value[0]
    ensures t.musasTags.value == [] ==> Semantic(t, hasPymusas) == Unclassified
  {
  }

  /** With the tagger inactive, or a token without the attribute, the code
      is the fallback classifier's and any tag list is ignored. */
  lemma FallbackPathIgnoresTags(t: RawToken, hasPymusas: bool, tags: Option<seq<string>>)
    requires !UsesTagger(t, hasPymusas)
    ensures Semantic(t, hasPymusas) == BackendFallback.Classify(t.baseForm, t.pos)
    ensures !hasPymusas ==> Semantic(t.(musasTags := tags), hasPymusas) == Semantic(t, hasPymusas)
  {
  }

  /** Handles one `/analyze` request whose JSON body is `body`, with the
      semantic tagger active when `hasPymusas` holds.  A body without `text`
      is rejected with status 400; otherwise the response lists one
      annotation per token of `nlp(text)`, in order. */
  method AnalyzeText(body: Body, hasPymusas: bool, nlp: string -> seq<RawToken>) returns (resp: Response)
    ensures resp.Rejected? <==> LacksText(body)
    ensures resp.Rejected? ==> resp.status == 400 && resp.error == NoTextError
    ensures resp.Analyzed? ==>
      var doc := nlp(body.value["text"]);
      && |resp.tokens| == |doc| && resp.numTokens == |resp.tokens|
      && resp.corpusName == CorpusName(body.value)
      && resp.hasPymusas == hasPymusas
      && forall i :: 0 <= i < |doc| ==>
           CopiesToken(resp.tokens[i], doc[i]) && resp.tokens[i].semantic == Semantic(doc[i], hasPymusas)
  {
    if body.None? || "text" !in body.value {
      return Rejected(400, NoTextError);
    }
    var data := body.value;
    var doc := nlp(data["text"]);
    var tokens: seq<TokenAnnotation> := [];
    for i := 0 to |doc|
      invariant |tokens| == i
      invariant forall k :: 0 <= k < i ==>
        CopiesToken(tokens[k], doc[k]) && tokens[k].semantic == Semantic(doc[k], hasPymusas)
    {
      var token := doc[i];
      var semantic;
      if hasPymusas && token.musasTags.Some? {
        semantic := if token.musasTags.value != [] then token.musasTags.value[0] else Unclassified;
      } else {
        semantic := BackendFallback.Classify(token.baseForm, token.pos);
      }
      tokens := tokens + [Annotate(token, semantic)];
    }
    resp := Analyzed(tokens, |tokens|, CorpusName(data), hasPymusas);
  }

  /** "I love cats" tagged PRON VERB NOUN without the tagger is annotated
      `Z8`, `E1.1+`, `O2`. */
  lemma LoveCatsScenario(doc: seq<RawToken>)
    requires |doc| == 3
    requires doc[0].baseForm == "I" && doc[0].pos == "PRON"
    requires doc[1].baseForm == "love" && doc[1].pos == "VERB"
    requires doc[2].baseForm == "cats" && doc[2].pos == "NOUN"
    ensures Semantic(doc[0], false) == "Z8"
    ensures Semantic(doc[1], false) == "E1.1+"
    ensures Semantic(doc[2], false) == "O2"
  {
    assert Lower("I") == "i";
    LowerOfLower("love");
    LowerOfLower("cats");
  }
}
