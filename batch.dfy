/** The batch driver: one named output document per spreadsheet row, in row
    order, published to the session only when every step of the run
    succeeded. */
module Batch {
  import opened Pdf
  import opened FieldMap
  import opened Overlay
  import opened Merge

  /** An output file: its name and its document. */
  datatype NamedBuffer = NamedBuffer(name: string, document: Document)

  /** The file name of a row's output: the texts of its first two cells
      joined by an underscore, with the ".pdf" extension. A row with fewer
      than two cells has no such name. */
  function OutputName(row: Row): (r: Result<string>)
    ensures r.Success? <==> |row| >= 2
    ensures r.Success? ==> r.value == Str(row[0]) + "_" + Str(row[1]) + ".pdf"
    ensures r.Failure? ==> r.error == IndexOutOfRange
  {
    match CellAt(row, 0)
    case Failure(e) => Failure(e)
    case Success(first) =>
      match CellAt(row, 1)
      case Failure(e) => Failure(e)
      case Success(second) => Success(Str(first) + "_" + Str(second) + ".pdf")
  }

  /** One row through the whole pipeline: read the template, draw the
      overlay, merge it page by page, name the result. The first error
      stops the row. */
  function RenderRow(template: Result<Template>, row: Row): (r: Result<NamedBuffer>)
    ensures r.Success? ==>
      && template.Success?
      && OverlayOf(template.value, row).Success?
      && |row| >= 2
      && r.value.name == Str(row[0]) + "_" + Str(row[1]) + ".pdf"
      && Bases(r.value.document) == template.value
      && Overlays(r.value.document) == OverlayOf(template.value, row).value
    ensures r.Failure? <==>
      template.Failure? || OverlayOf(template.value, row).Failure? || |row| < 2
    ensures r.Failure? ==>
      if template.Failure? then r.error == template.error
      else if OverlayOf(template.value, row).Failure? then r.error == OverlayOf(template.value, row).error
      else r.error == IndexOutOfRange
  {
    match template
    case Failure(e) => Failure(e)
    case Success(pages) =>
      match OverlayOf(pages, row)
      case Failure(e) => Failure(e)
      case Success(overlay) =>
        var doc := MergeOf(pages, overlay);
        MergeKeepsPages(pages, overlay);
        assert overlay[..|pages|] == overlay;
        match OutputName(row)
        case Failure(e) => Failure(e)
        case Success(name) => Success(NamedBuffer(name, doc))
  }

  /** Each row's outcome, row by row. */
  function RowSteps(template: Result<Template>, rows: seq<Row>): (steps: seq<Result<NamedBuffer>>)
    ensures |steps| == |rows|
    ensures forall k :: 0 <= k < |rows| ==> steps[k] == RenderRow(template, rows[k])
  {
    seq(|rows|, k requires 0 <= k < |rows| => RenderRow(template, rows[k]))
  }

  /** The outputs of all rows, in row order, or the first row's error. */
  function BatchOf(template: Result<Template>, rows: seq<Row>): (r: Result<seq<NamedBuffer>>)
    ensures r.Success? <==> forall k :: 0 <= k < |rows| ==> RenderRow(template, rows[k]).Success?
    ensures r.Success? ==> |r.value| == |rows|
    ensures r.Success? ==> forall k :: 0 <= k < |rows| ==> r.value[k] == RenderRow(template, rows[k]).value
  {
    Collect(RowSteps(template, rows))
  }

  /** The batch fails with the error of its first failing row: no later row
      is processed. */
  lemma RowStopsBatch(template: Result<Template>, rows: seq<Row>, k: nat)
    requires k < |rows|
    requires forall j :: 0 <= j < k ==> RenderRow(template, rows[j]).Success?
    requires RenderRow(template, rows[k]).Failure?
    ensures BatchOf(template, rows) == Failure(RenderRow(template, rows[k]).error)
  {
    CollectStopsAtFirstFailure(RowSteps(template, rows), k);
  }

  /** One iteration of the row loop: reads the template, draws the overlay
      on a canvas, merges it page by page through a writer and names the
      result; the first error stops the row. */
  method FillRow(template: Result<Template>, row: Row) returns (r: Result<NamedBuffer>)
    ensures r == RenderRow(template, row)
  {
    if template.Failure? {
      return Failure(template.error);
    }
    var basePdf := template.value;
    var overlay := RenderOverlay(basePdf, row);
    if overlay.Failure? {
      return Failure(overlay.error);
    }
    var doc := MergePages(basePdf, overlay.value);
    var name := OutputName(row);
    if name.Failure? {
      return Failure(name.error);
    }
    r := Success(NamedBuffer(name.value, doc));
  }

  /** Runs the pipeline on each row in turn and collects one named document
      per row; the first error abandons the collected list. */
  method GenerateAll(template: Result<Template>, rows: seq<Row>) returns (r: Result<seq<NamedBuffer>>)
    ensures r == BatchOf(template, rows)
  {
    var buffers: seq<NamedBuffer> := [];
    for k := 0 to |rows|
      invariant |buffers| == k
      invariant forall j :: 0 <= j < k ==> RenderRow(template, rows[j]) == Success(buffers[j])
    {
      var output := FillRow(template, rows[k]);
      if output.Failure? {
        RowStopsBatch(template, rows, k);
        return Failure(output.error);
      }
      buffers := buffers + [output.value];
    }
    assert BatchOf(template, rows).value == buffers;
    r := Success(buffers);
  }

  /** What the session holds after a run that started from `previous`: the
      full list of outputs when the spreadsheet was obtained and every row
      went through, and `previous`, untouched, otherwise. */
  function Published(previous: Option<seq<NamedBuffer>>, sheet: Result<seq<Row>>, template: Result<Template>)
    : (r: Option<seq<NamedBuffer>>)
    ensures sheet.Failure? ==> r == previous
    ensures sheet.Success? && (exists k :: 0 <= k < |sheet.value| && RenderRow(template, sheet.value[k]).Failure?)
            ==> r == previous
    ensures sheet.Success? && (forall k :: 0 <= k < |sheet.value| ==> RenderRow(template, sheet.value[k]).Success?)
            ==> r.Some? && |r.value| == |sheet.value| &&
                forall k :: 0 <= k < |sheet.value| ==> r.value[k] == RenderRow(template, sheet.value[k]).value
  {
    match sheet
    case Failure(_) => previous
    case Success(rows) =>
      match BatchOf(template, rows)
      case Failure(_) => previous
      case Success(buffers) => Some(buffers)
  }

  /** What the run reports to the user. */
  datatype Notice = Finished | Reported(error: Error)

  /** The user's session: the outputs of the last successful run, if any. */
  class Session {
    var pdfBuffers: Option<seq<NamedBuffer>>

    constructor ()
      ensures pdfBuffers == None
    {
      pdfBuffers := None;
    }

    /** One press of the generate button, given the outcome of fetching and
        parsing the spreadsheet and of reading the template. The session is
        assigned only after the last row; any error is reported and leaves
        it as it was. */
    method Generate(sheet: Result<seq<Row>>, template: Result<Template>) returns (notice: Notice)
      modifies this
      ensures pdfBuffers == Published(old(pdfBuffers), sheet, template)
      ensures notice == Finished <==> pdfBuffers.Some? && sheet.Success? && BatchOf(template, sheet.value).Success?
      ensures notice.Reported? ==> pdfBuffers == old(pdfBuffers)
      ensures notice.Reported? ==>
        if sheet.Failure? then notice.error == sheet.error
        else BatchOf(template, sheet.value) == Failure(notice.error)
    {
      if sheet.Failure? {
        return Reported(sheet.error);
      }
      var buffers := GenerateAll(template, sheet.value);
      if buffers.Failure? {
        return Reported(buffers.error);
      }
      pdfBuffers := Some(buffers.value);
      notice := Finished;
    }
  }

  /** A two-page template whose first page has the field of column A at
      (100, 700, 200, 720), and a row whose first two cells are "Dupont"
      and "Marie". */
  const ExampleTemplate: Template :=
    [Page("", [Annotation(Some("Champ de texte 110"), [100.0, 700.0, 200.0, 720.0])]), Page("", [])]
  const ExampleRow: Row := [Present("Dupont"), Present("Marie")]

  /** On the example, "Dupont" is drawn at (104, 706) on the first page and
      nothing on the second. */
  lemma ExampleOverlay()
    ensures OverlayOf(ExampleTemplate, ExampleRow) == Success([[Draw(104.0, 706.0, "Dupont")], []])
  {
    var field := ExampleTemplate[0].annots[0];
    var drawn := Draw(104.0, 706.0, "Dupont");
    NamesDistinct();
    LookupFinds(Entries, 0);
    assert Column(field.name.value) == Some(0);
    assert AnnotationDraws(field, ExampleRow) == Success([drawn]);
    PageDrawsOne(field, ExampleRow);
    assert PageDraws([], ExampleRow) == Success([]);
    var overlay := OverlayOf(ExampleTemplate, ExampleRow);
    assert overlay.Success? && overlay.value == [[drawn], []];
  }

  /** On the example, the batch yields the single file "Dupont_Marie.pdf"
      whose pages are the template's two pages with that overlay. */
  lemma ExampleBatch()
    ensures BatchOf(Success(ExampleTemplate), [ExampleRow]) ==
      Success([NamedBuffer("Dupont_Marie.pdf",
                           [MergedPage(ExampleTemplate[0], [Draw(104.0, 706.0, "Dupont")]),
                            MergedPage(ExampleTemplate[1], [])])])
  {
    ExampleOverlay();
    var overlay := [[Draw(104.0, 706.0, "Dupont")], []];
    assert OutputName(ExampleRow) == Success("Dupont" + "_" + "Marie" + ".pdf");
    assert "Dupont" + "_" + "Marie" + ".pdf" == "Dupont_Marie.pdf";
    var doc := MergeOf(ExampleTemplate, overlay);
    assert doc == [MergedPage(ExampleTemplate[0], overlay[0]), MergedPage(ExampleTemplate[1], overlay[1])];
    var b := NamedBuffer("Dupont_Marie.pdf", doc);
    assert RenderRow(Success(ExampleTemplate), ExampleRow) == Success(b);
    assert [ExampleRow][..0] == [];
    assert [] + [b] == [b];
  }
}
