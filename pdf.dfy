/** Abstract values standing in for the spreadsheet row and the PDF objects
    that the form-filling pipeline reads and produces. The PDF and spreadsheet
    libraries themselves are not modelled: a template is what the pipeline
    reads from it (pages and their annotations), and an overlay is the list of
    text-drawing commands it issues. */
module Pdf {

  datatype Option<+T> = None | Some(value: T)

  /** The ways one run of the generator can fail. Every one of them is an
      exception in the program and ends the whole run. */
  datatype Error =
    | FetchFailed         // the spreadsheet download failed or returned an HTTP error status
    | SheetUnreadable     // the download could not be parsed as a spreadsheet
    | TemplateUnreadable  // the PDF template could not be opened
    | IndexOutOfRange     // a positional cell access past the end of the row
    | RectNotFourNumbers  // a field rectangle that does not unpack into x1, y1, x2, y2

  datatype Result<+T> = Success(value: T) | Failure(error: Error)

  /** The values of a run of steps taken in order, or the error of the first
      step that failed: the run stops at the first exception. */
  function Collect<T>(steps: seq<Result<T>>): (r: Result<seq<T>>)
    ensures r.Success? <==> forall k :: 0 <= k < |steps| ==> steps[k].Success?
    ensures r.Success? ==> |r.value| == |steps|
    ensures r.Success? ==> forall k :: 0 <= k < |steps| ==> r.value[k] == steps[k].value
    decreases |steps|
  {
    if steps == [] then Success([])
    else
      var n := |steps| - 1;
      match Collect(steps[..n])
      case Failure(e) => Failure(e)
      case Success(values) =>
        match steps[n]
        case Failure(e) => Failure(e)
        case Success(v) => Success(values + [v])
  }

  /** When every step before step k succeeded and step k failed, the run
      fails with step k's error. */
  lemma {:induction false} CollectStopsAtFirstFailure<T>(steps: seq<Result<T>>, k: nat)
    requires k < |steps|
    requires forall j :: 0 <= j < k ==> steps[j].Success?
    requires steps[k].Failure?
    ensures Collect(steps) == Failure(steps[k].error)
    decreases |steps|
  {
    var n := |steps| - 1;
    if k < n {
      assert forall j :: 0 <= j < k ==> steps[..n][j] == steps[j];
      CollectStopsAtFirstFailure(steps[..n], k);
    } else {
      assert forall j :: 0 <= j < n ==> steps[..n][j] == steps[j];
    }
  }

  /** The elements of a sequence of sequences, in order. */
  function Concat<T>(parts: seq<seq<T>>): (r: seq<T>)
    decreases |parts|
  {
    if parts == [] then [] else Concat(parts[..|parts| - 1]) + parts[|parts| - 1]
  }

  /** Concatenating parts of at most one element each: no longer than the
      number of parts, and an element is in the result exactly when some
      part consists of it. */
  lemma {:induction false} ConcatOfSingletons<T>(parts: seq<seq<T>>)
    requires forall j :: 0 <= j < |parts| ==> |parts[j]| <= 1
    ensures |Concat(parts)| <= |parts|
    ensures forall x :: x in Concat(parts) <==> exists j :: 0 <= j < |parts| && parts[j] == [x]
    decreases |parts|
  {
    if parts != [] {
      var n := |parts| - 1;
      var front := parts[..n];
      ConcatOfSingletons(front);
      assert forall j :: 0 <= j < n ==> front[j] == parts[j];
      assert parts[n] == [] || parts[n] == [parts[n][0]];
    }
  }

  /** A successful run of steps that each yield at most one element:
      concatenated, its values hold exactly the elements some step yields
      on its own. */
  lemma CollectedSingletons<T>(steps: seq<Result<seq<T>>>)
    requires Collect(steps).Success?
    requires forall j :: 0 <= j < |steps| ==> |steps[j].value| <= 1
    ensures forall x :: x in Concat(Collect(steps).value) <==>
              exists j :: 0 <= j < |steps| && steps[j] == Success([x])
  {
    var parts := Collect(steps).value;
    ConcatOfSingletons(parts);
    forall x
      ensures x in Concat(parts) <==> exists j :: 0 <= j < |steps| && steps[j] == Success([x])
    {
      if x in Concat(parts) {
        var j :| 0 <= j < |parts| && parts[j] == [x];
        assert steps[j] == Success([x]);
      }
    }
  }

  /** One spreadsheet cell: `Null` is what the null test rejects (an empty
      cell), `Present(text)` carries the text the cell converts to. */
  datatype Cell = Null | Present(text: string)

  /** A spreadsheet row: its cells by zero-based column. */
  type Row = seq<Cell>

  /** A widget annotation of a template page. `name` is the decoded field
      name when the annotation has one; `rect` holds the rectangle's numbers,
      and is empty when the annotation has no rectangle. */
  datatype Annotation = Annotation(name: Option<string>, rect: seq<real>)

  /** A template page: its existing drawing, kept opaque, and its annotations
      in document order (empty when the page has none). */
  datatype Page = Page(content: string, annots: seq<Annotation>)

  type Template = seq<Page>

  /** One text-drawing command on an overlay page. */
  datatype Draw = Draw(x: real, y: real, text: string)

  /** An overlay page is the sequence of texts drawn on it, in drawing order. */
  type OverlayPage = seq<Draw>

  /** Positional cell access with integer-index semantics: a non-negative
      index counts from the start, a negative one from the end, and any other
      index is an error. */
  function CellAt(row: Row, i: int): (r: Result<Cell>)
    ensures r.Success? <==> -|row| <= i < |row|
    ensures 0 <= i < |row| ==> r == Success(row[i])
    ensures -|row| <= i < 0 ==> r == Success(row[|row| + i])
    ensures r.Failure? ==> r.error == IndexOutOfRange
  {
    if 0 <= i < |row| then Success(row[i])
    else if -|row| <= i < 0 then Success(row[|row| + i])
    else Failure(IndexOutOfRange)
  }

  /** The text a cell turns into inside a formatted string: a null cell is a
      floating-point not-a-number and prints as "nan". */
  function Str(c: Cell): (s: string)
    ensures c.Present? ==> s == c.text
  {
    match c
    case Null => "nan"
    case Present(text) => text
  }
}
