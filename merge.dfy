/** Stacking the overlay onto the template, page by page, into the output
    document. */
module Merge {
  import opened Pdf

  /** An output page: a template page with an overlay page on top of it. */
  datatype MergedPage = MergedPage(base: Page, overlay: OverlayPage)

  type Document = seq<MergedPage>

  /** Output page i is template page i under overlay page i, for every
      template page. The overlay must have a page for each template page:
      that is what makes the positional overlay access in bounds. */
  function MergeOf(template: Template, overlay: seq<OverlayPage>): (doc: Document)
    requires |overlay| >= |template|
    ensures |doc| == |template|
  {
    seq(|template|, i requires 0 <= i < |template| => MergedPage(template[i], overlay[i]))
  }

  /** The pages beneath the overlays, in document order. */
  function Bases(doc: Document): (pages: seq<Page>)
    ensures |pages| == |doc|
  {
    seq(|doc|, i requires 0 <= i < |doc| => doc[i].base)
  }

  /** The overlay pages, in document order. */
  function Overlays(doc: Document): (pages: seq<OverlayPage>)
    ensures |pages| == |doc|
  {
    seq(|doc|, i requires 0 <= i < |doc| => doc[i].overlay)
  }

  /** Merging loses nothing and reorders nothing: beneath the overlays lie
      exactly the template's pages, and on top lie the overlay's pages in
      the same order, one per template page. */
  lemma MergeKeepsPages(template: Template, overlay: seq<OverlayPage>)
    requires |overlay| >= |template|
    ensures Bases(MergeOf(template, overlay)) == template
    ensures Overlays(MergeOf(template, overlay)) == overlay[..|template|]
  {
  }

  /** The output writer: the pages added so far. */
  class Writer {
    var pages: Document

    constructor ()
      ensures pages == []
    {
      pages := [];
    }

    method AddPage(p: MergedPage)
      modifies this
      ensures pages == old(pages) + [p]
    {
      pages := pages + [p];
    }
  }

  /** Walks the template's pages, stacks overlay page i on template page i
      and adds the result to a writer; the writer ends up holding MergeOf. */
  method MergePages(template: Template, overlay: seq<OverlayPage>) returns (doc: Document)
    requires |overlay| >= |template|
    ensures doc == MergeOf(template, overlay)
  {
    var writer := new Writer();
    for i := 0 to |template|
      invariant writer.pages == MergeOf(template[..i], overlay)
    {
      var page := MergedPage(template[i], overlay[i]);
      writer.AddPage(page);
    }
    assert template[..|template|] == template;
    doc := writer.pages;
  }
}
