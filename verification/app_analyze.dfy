/** The `/analyze` handler of the hosted entry point (`analyze_text` in
    app.py): the same per-token choice and response shape as the no-cache
    backend, with app.py's own fallback classifier.  The NLP pipeline is the
    parameter `nlp`. */
module AppAnalyze {
  import opened Wrappers
  import opened Annotation
  import AppFallback

  /** The semantic code of one token: the tagger's verdict when the tagger
      is active and the token carries a tag list, app.py's fallback
      classifier otherwise.  It is empty only if the tagger itself put an
      empty code first. */
  function Semantic(t: RawToken, hasPymusas: bool): (code: string)
    ensures code == "" ==> UsesTagger(t, hasPymusas) && t.musasTags.value != [] && t.musasTags.value[0] == ""
  {
    if UsesTagger(t, hasPymusas) then TopTag(t.musasTags.value)
    else AppFallback.Classify(t.baseForm, t.pos)
  }

  /** On the tagger's path the code is the first tag, or `Z99` for an empty
      list, and the lemma and part of speech are never consulted. */
  lemma TaggerPathIgnoresFallback(t: RawToken, u: RawToken, hasPymusas: bool)
    requires UsesTagger(t, hasPymusas) && u.musasTags == t.musasTags
    ensures Semantic(t, hasPymusas) == Semantic(u, hasPymusas)
    ensures t.musasTags.value != [] ==> Semantic(t, hasPymusas) == t.musasTags.value[0]
    ensures t.musasTags.value == [] ==> Semantic(t, hasPymusas) == Unclassified
  {
  }

  /** With the tagger inactive, or a token without the attribute, the code
      is the fallback classifier's and any tag list is ignored. */
  lemma FallbackPathIgnoresTags(t: RawToken, hasPymusas: bool, tags: Option<seq<string>>)
    requires !UsesTagger(t, hasPymusas)
    ensures Semantic(t, hasPymusas) == AppFallback.Classify(t.baseForm, t.pos)
    ensures !hasPymusas ==> Semantic(t.(musasTags := tags), hasPymusas) == Semantic(t, hasPymusas)
  {
  }

  /** Handles one `/analyze` request whose JSON body is `body`, with the
      semantic tagger active when `hasPymusas` holds.  A body without `text`
      is rejected with status 400; otherwise the corpus name is read (with
      its default) and the response lists one annotation per token of
      `nlp(text)`, in order, under one `has_pymusas` flag. */
  method AnalyzeText(body: Body, hasPymusas: bool, nlp: string -> seq<RawToken>) returns (resp: Response)
    ensures resp.Rejected? <==> LacksText(body)
    ensures resp.Rejected? ==> resp.status == 400 && resp.error == NoTextError
    ensures resp.Analyzed? ==>
      var doc := nlp(body.value["text"]);
      && |resp.tokens| == |doc| && resp.numTokens == |resp.tokens|
      && resp.corpusName == CorpusName(body.value)
      && resp.hasPymusas == hasPymusas
      && forall i :: 0 <= i < |doc| ==>
           CopiesToken(resp.tokens[i], doc[i]) && resp.tokens[i].semantic == Semantic(doc[i], hasPymusas)
  {
    if body.None? || "text" !in body.value {
      return Rejected(400, NoTextError);
    }
    var data := body.value;
    var text := data["text"];
    var corpusName := CorpusName(data);
    var doc := nlp(text);
    var tokens: seq<TokenAnnotation> := [];
    for i := 0 to |doc|
      invariant |tokens| == i
      invariant forall k :: 0 <= k < i ==>
        CopiesToken(tokens[k], doc[k]) && tokens[k].semantic == Semantic(doc[k], hasPymusas)
    {
      var token := doc[i];
      var primarySemantic;
      if hasPymusas && token.musasTags.Some? {
        var semanticTags := token.musasTags.value;
        primarySemantic := if semanticTags != [] then semanticTags[0] else Unclassified;
      } else {
        primarySemantic := AppFallback.Classify(token.baseForm, token.pos);
      }
      tokens := tokens + [Annotate(token, primarySemantic)];
    }
    resp := Analyzed(tokens, |tokens|, corpusName, hasPymusas);
  }
}
