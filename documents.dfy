/** The retrieved documents both RAG graphs pass around (LangChain's `Document`). */
module Documents {

  /** A retrieved chunk: its text and the store's metadata. */
  datatype Document = Document(pageContent: string, metadata: map<string, string>)

  /** `[doc.page_content for doc in docs]`: one text per document, in context order. */
  function PageContents(docs: seq<Document>): (r: seq<string>)
    ensures |r| == |docs|
    ensures forall i :: 0 <= i < |docs| ==> r[i] == docs[i].pageContent
  {
    seq(|docs|, i requires 0 <= i < |docs| => docs[i].pageContent)
  }
}
