/** src/pages/sections/DocumentsPage.tsx: the category labels of the
    documents page and the search that narrows its list. */
module DocumentsPage {
  import opened Text
  import opened Seqs
  import opened Domain

  /** `getCategoryLabel`: the five known categories have their own labels;
      anything else is shown as it is. */
  function CategoryLabel(category: string): (shown: string)
    ensures category == DOCUMENTS ==> shown == "מסמכים כלליים"
    ensures category == INSURANCE ==> shown == "ביטוחים"
    ensures category == ASSETS ==> shown == "נכסים"
    ensures category == FINANCE ==> shown == "כספים"
    ensures category == INVESTMENTS ==> shown == "השקעות"
    ensures !IsItemCategory(category) && category != DOCUMENTS ==> shown == category
    ensures category != "" ==> shown != ""
  {
    if category == DOCUMENTS then "מסמכים כלליים"
    else if category == INSURANCE then "ביטוחים"
    else if category == ASSETS then "נכסים"
    else if category == FINANCE then "כספים"
    else if category == INVESTMENTS then "השקעות"
    else category
  }

  /** The five labels are different, so a label names one category. */
  lemma CategoryLabelsDistinct(a: string, b: string)
    requires IsItemCategory(a) || a == DOCUMENTS
    requires IsItemCategory(b) || b == DOCUMENTS
    requires a != b
    ensures CategoryLabel(a) != CategoryLabel(b)
  {
  }

  /** A document matches a query when its name or its category's label
      contains it, ignoring case. */
  predicate DocMatches(doc: Document, query: string) {
    var q := ToLower(query);
    Contains(ToLower(doc.name), q) || Contains(ToLower(CategoryLabel(doc.category)), q)
  }

  function MatchesQuery(query: string): Document -> bool
  {
    (doc: Document) => DocMatches(doc, query)
  }

  /** What the list shows: every document for an empty search, otherwise
      those that match, in their order. */
  function Shown(documents: seq<Document>, query: string): (r: seq<Document>)
    ensures query == "" ==> r == documents
    ensures IsSubseq(r, documents)
    ensures forall i :: 0 <= i < |r| ==> query == "" || DocMatches(r[i], query)
    ensures forall i :: 0 <= i < |documents| && DocMatches(documents[i], query) ==> documents[i] in r
    ensures forall x :: multiset(r)[x] == if query == "" || DocMatches(x, query) then multiset(documents)[x] else 0
  {
    if query == "" then
      FilterAll(documents, (doc: Document) => true);
      FilterIsSubseq(documents, (doc: Document) => true);
      documents
    else
      FilterIsSubseq(documents, MatchesQuery(query));
      FilterCount(documents, MatchesQuery(query));
      Filter(documents, MatchesQuery(query))
  }

  /** Searching for a category's label lists every document of that
      category. */
  lemma LabelSearchFindsCategory(documents: seq<Document>, category: string)
    requires category != ""
    ensures forall i :: 0 <= i < |documents| && documents[i].category == category ==>
      documents[i] in Shown(documents, CategoryLabel(category))
  {
    var q := CategoryLabel(category);
    ContainsSelf(ToLower(q));
    forall i | 0 <= i < |documents| && documents[i].category == category
      ensures DocMatches(documents[i], q)
    {
    }
  }

  /** The page's list state: the search text and what the effect last
      stored for it. */
  class DocumentsPage {
    var searchQuery: string
    var filteredDocuments: seq<Document>

    constructor(documents: seq<Document>)
      ensures searchQuery == "" && filteredDocuments == documents
    {
      searchQuery := "";
      filteredDocuments := documents;
    }

    method SetSearchQuery(query: string)
      modifies this
      ensures searchQuery == query && filteredDocuments == old(filteredDocuments)
    {
      searchQuery := query;
    }

    /** The filter effect, run when the query or the documents change. */
    method FilterEffect(documents: seq<Document>)
      modifies this
      ensures searchQuery == old(searchQuery)
      ensures filteredDocuments == Shown(documents, searchQuery)
    {
      if searchQuery != "" {
        var filtered := Filter(documents, MatchesQuery(searchQuery));
        filteredDocuments := filtered;
      } else {
        filteredDocuments := documents;
      }
    }
  }
}
