/** The retrieval-augmented search (src/ai/agents/medico/SmartSearchAgent.ts):
    retrieved documents become the prompt's context, and their sources are
    returned once each, in order of first appearance. */
module SmartSearchAgent {
  import opened Common
  import opened Strings

  const ContextSeparator := "\n---\n"
  const UnknownSource := "Unknown"

  /** A retrieved document: its text and its metadata's `source`, if any. */
  datatype Document = Document(text: string, source: Option<string>)

  datatype SearchAnswer = SearchAnswer(answer: string, sources: seq<string>)

  /** `d.metadata?.source || 'Unknown'` */
  function SourceOf(d: Document): (s: string)
    ensures Truthy(d.source) ==> s == d.source.value
    ensures !Truthy(d.source) ==> s == UnknownSource
    ensures s != ""
  {
    if Truthy(d.source) then d.source.value else UnknownSource
  }

  function Sources(docs: seq<Document>): (r: seq<string>)
    ensures |r| == |docs|
    ensures forall i :: 0 <= i < |docs| ==> r[i] == SourceOf(docs[i])
  {
    seq(|docs|, i requires 0 <= i < |docs| => SourceOf(docs[i]))
  }

  function Texts(docs: seq<Document>): (r: seq<string>)
    ensures |r| == |docs|
    ensures forall i :: 0 <= i < |docs| ==> r[i] == docs[i].text
  {
    seq(|docs|, i requires 0 <= i < |docs| => docs[i].text)
  }

  /** The prompt's context: the texts in retrieval order, separated by
      `\n---\n`; no document gives an empty context and one document its text. */
  function Context(docs: seq<Document>): (c: string)
    ensures docs == [] ==> c == ""
    ensures |docs| == 1 ==> c == docs[0].text
  {
    Join(Texts(docs), ContextSeparator)
  }

  /** A further document extends the context at its end, after one separator. */
  lemma ContextAppend(docs: seq<Document>, d: Document)
    requires docs != []
    ensures Context(docs + [d]) == Context(docs) + ContextSeparator + d.text
  {
    assert Texts(docs + [d]) == Texts(docs) + [d.text];
    JoinSnoc(Texts(docs), d.text, ContextSeparator);
  }

  predicate NoDuplicates(xs: seq<string>) {
    forall i, j :: 0 <= i < j < |xs| ==> xs[i] != xs[j]
  }

  /** The position of the first occurrence of `x`. */
  function FirstIndex(xs: seq<string>, x: string): (k: nat)
    requires x in xs
    ensures k < |xs| && xs[k] == x && x !in xs[..k]
  {
    if xs[0] == x then 0
    else
      var k := 1 + FirstIndex(xs[1..], x);
      assert xs[..k] == [xs[0]] + xs[1..][..k - 1];
      k
  }

  /** A first occurrence inside a prefix is the first occurrence in the whole. */
  lemma FirstIndexInPrefix(xs: seq<string>, n: nat, x: string)
    requires n <= |xs| && x in xs[..n]
    ensures FirstIndex(xs, x) == FirstIndex(xs[..n], x)
  {
    var a, b := FirstIndex(xs, x), FirstIndex(xs[..n], x);
    assert xs[..n][..b] == xs[..b];
  }

  /** `[...new Set(xs)]`: each value once, in order of first occurrence. */
  function Unique(xs: seq<string>): (r: seq<string>)
    ensures NoDuplicates(r)
    ensures forall x :: x in r <==> x in xs
    ensures |r| <= |xs|
    ensures forall i, j :: 0 <= i < j < |r| ==> FirstIndex(xs, r[i]) < FirstIndex(xs, r[j])
    decreases |xs|
  {
    if xs == [] then []
    else
      var init, last := xs[..|xs| - 1], xs[|xs| - 1];
      assert xs == init + [last];
      var u := Unique(init);
      forall x | x in u
        ensures FirstIndex(xs, x) == FirstIndex(init, x)
      {
        FirstIndexInPrefix(xs, |xs| - 1, x);
      }
      if last in u then u
      else
        assert last !in init;
        assert FirstIndex(xs, last) == |xs| - 1;
        u + [last]
  }

  /** A list without duplicates is its own de-duplication. */
  lemma {:induction false} UniqueOfDistinct(xs: seq<string>)
    requires NoDuplicates(xs)
    ensures Unique(xs) == xs
    decreases |xs|
  {
    if xs != [] {
      var init, last := xs[..|xs| - 1], xs[|xs| - 1];
      UniqueOfDistinct(init);
      assert last !in init;
      assert init + [last] == xs;
    }
  }

  /** De-duplicating twice is de-duplicating once. */
  lemma UniqueIdempotent(xs: seq<string>)
    ensures Unique(Unique(xs)) == Unique(xs)
  {
    UniqueOfDistinct(Unique(xs));
  }

  /** `smartSearchFlow`, given the retriever and the model as a function of
      the question and the context; a failure of either propagates. */
  function SmartSearchFlow(query: string, retrieve: string -> Result<seq<Document>>,
                           generate: (string, string) -> Result<string>): (r: Result<SearchAnswer>)
    ensures retrieve(query).Err? ==> r == Err(retrieve(query).error)
    ensures retrieve(query).Ok? ==>
      var docs := retrieve(query).value;
      && (generate(query, Context(docs)).Err? ==> r == Err(generate(query, Context(docs)).error))
      && (generate(query, Context(docs)).Ok? ==>
            && r.Ok?
            && r.value.answer == generate(query, Context(docs)).value
            && r.value.sources == Unique(Sources(docs)))
    ensures r.Ok? ==>
      var docs := retrieve(query).value;
      && NoDuplicates(r.value.sources)
      && |r.value.sources| <= |docs|
      && (forall i :: 0 <= i < |docs| ==> SourceOf(docs[i]) in r.value.sources)
      && (forall s :: s in r.value.sources ==> exists i :: 0 <= i < |docs| && SourceOf(docs[i]) == s)
  {
    match retrieve(query)
    case Err(e) => Err(e)
    case Ok(docs) =>
      match generate(query, Context(docs))
      case Err(e) => Err(e)
      case Ok(text) =>
        var sources := Unique(Sources(docs));
        assert forall i :: 0 <= i < |docs| ==> Sources(docs)[i] in sources;
        Ok(SearchAnswer(text, sources))
  }
}
