/** The records that flow through `analyze_text`: what the NLP pipeline
    hands over for one token, the annotation returned for it, and the
    response to one analysis request.  The pipeline itself and the
    semantic tagger are outside the model; their output is data here. */
module Annotation {
  import opened Wrappers

  /** One token as the NLP pipeline produces it.  `musasTags` is `None`
      when the token has no `pymusas_tags` extension attribute, and
      `Some(tags)` (possibly empty) when it has one.  `baseForm` is spaCy's
      `lemma_`; `lemma` is a Dafny keyword, so the field has another name. */
  datatype RawToken = RawToken(
    text: string,
    pos: string,
    tag: string,
    dep: string,
    head: nat,
    baseForm: string,
    isStop: bool,
    isPunct: bool,
    musasTags: Option<seq<string>>)

  /** One entry of the `tokens` list of the response.  `baseForm` is the
      `"lemma"` key (`lemma` is a Dafny keyword). */
  datatype TokenAnnotation = TokenAnnotation(
    word: string,
    pos: string,
    tag: string,
    semantic: string,
    dep: string,
    head: nat,
    baseForm: string,
    isStop: bool,
    isPunct: bool)

  /** The JSON answer of `/analyze`: a rejection with its HTTP status, or
      the analysis itself. */
  datatype Response =
    | Rejected(status: nat, error: string)
    | Analyzed(tokens: seq<TokenAnnotation>, numTokens: nat, corpusName: string, hasPymusas: bool)

  /** A request body: `None` when `get_json()` gives `None`, that is for
      JSON `null` and, before Flask 2.1, for a body whose content type is
      not JSON; otherwise the members of a JSON object whose values are
      strings.  A body sent as JSON that does not parse, the empty body
      included, makes `get_json()` raise in every Flask version. */
  type Body = Option<map<string, string>>

  const NoTextError := "No text provided"
  const DefaultCorpusName := "unnamed"
  const Unclassified := "Z99"

  /** The request is turned away before analysis: no body, or no `text`
      member (an empty object has none). */
  predicate LacksText(body: Body) {
    body.None? || "text" !in body.value
  }

  /** The corpus label echoed back, `"unnamed"` when the request has none. */
  function CorpusName(fields: map<string, string>): (name: string)
    ensures "corpus_name" in fields ==> name == fields["corpus_name"]
    ensures "corpus_name" !in fields ==> name == DefaultCorpusName
  {
    if "corpus_name" in fields then fields["corpus_name"] else DefaultCorpusName
  }

  /** The tagger's verdict for a token that carries a tag list: its
      top-ranked code, or the unclassified sentinel when the list is empty. */
  function TopTag(tags: seq<string>): (code: string)
    ensures code == Unclassified || code in tags
    ensures tags != [] ==> code == tags[0]
  {
    if tags != [] then tags[0] else Unclassified
  }

  /** The semantic tagger's output is used for this token (rather than the
      fallback classifier): the tagger is active and the token carries the
      attribute. */
  predicate UsesTagger(t: RawToken, hasPymusas: bool) {
    hasPymusas && t.musasTags.Some?
  }

  /** The annotation for `t` with semantic code `semantic`: every other
      field is copied from the token. */
  function Annotate(t: RawToken, semantic: string): (a: TokenAnnotation)
    ensures CopiesToken(a, t) && a.semantic == semantic
  {
    TokenAnnotation(t.text, t.pos, t.tag, semantic, t.dep, t.head, t.baseForm, t.isStop, t.isPunct)
  }

  /** `a` carries the pass-through fields of `t` unchanged. */
  predicate CopiesToken(a: TokenAnnotation, t: RawToken) {
    && a.word == t.text
    && a.pos == t.pos
    && a.tag == t.tag
    && a.dep == t.dep
    && a.head == t.head
    && a.baseForm == t.baseForm
    && a.isStop == t.isStop
    && a.isPunct == t.isPunct
  }
}
