/** Generation of the text overlay for one spreadsheet row: for every
    template page, one overlay page carrying the row's values drawn just
    inside the rectangles of the mapped form fields. */
module Overlay {
  import opened Pdf
  import opened FieldMap

  /** Horizontal inset from the field rectangle's lower-left corner. */
  const InsetX: real := 4.0
  /** Vertical inset from the field rectangle's lower-left corner. */
  const InsetY: real := 6.0

  /** What one annotation adds to its overlay page: nothing unless it has a
      name and a rectangle, the name is in the table and the row's cell in
      the table's column is not null; then one text at the inset corner.
      Reading a column the row does not have, or a rectangle that is not
      four numbers, is an error. */
  function AnnotationDraws(a: Annotation, row: Row): (r: Result<seq<Draw>>)
    ensures r.Success? ==> |r.value| <= 1
    ensures a.name.None? || a.rect == [] || Column(a.name.value).None? ==> r == Success([])
  {
    if a.name.None? || a.rect == [] then Success([])
    else match Column(a.name.value)
      case None => Success([])
      case Some(k) =>
        match CellAt(row, k)
        case Failure(e) => Failure(e)
        case Success(cell) =>
          if cell.Null? then Success([])
          else if |a.rect| != 4 then Failure(RectNotFourNumbers)
          else Success([Draw(a.rect[0] + InsetX, a.rect[1] + InsetY, cell.text)])
  }

  /** The skip rules and the drawing position, stated on the table and the
      row directly: an annotation is drawn exactly when it is named, has a
      rectangle, is in the table and its cell is present; the text is the
      cell's text at (x1 + 4, y1 + 6). A row too short for the column fails
      with an index error; otherwise a drawn field whose rectangle is not
      four numbers fails with an unpacking error. */
  lemma AnnotationRule(a: Annotation, row: Row)
    ensures a.name.Some? && a.name.value in Mapping ==> 0 <= Idx(Mapping[a.name.value]) < Width
    ensures var r := AnnotationDraws(a, row);
      && (r.Failure? <==>
            a.name.Some? && a.rect != [] && a.name.value in Mapping &&
            (Idx(Mapping[a.name.value]) >= |row| ||
             (row[Idx(Mapping[a.name.value])].Present? && |a.rect| != 4)))
      && (r.Failure? ==>
            r.error == (if Idx(Mapping[a.name.value]) >= |row| then IndexOutOfRange else RectNotFourNumbers))
      && (r.Success? && r.value != [] <==>
            a.name.Some? && a.rect != [] && a.name.value in Mapping &&
            Idx(Mapping[a.name.value]) < |row| &&
            row[Idx(Mapping[a.name.value])].Present? && |a.rect| == 4)
      && (r.Success? && r.value != [] ==>
            r.value == [Draw(a.rect[0] + 4.0, a.rect[1] + 6.0,
                             row[Idx(Mapping[a.name.value])].text)])
  {
    if a.name.Some? {
      ColumnOfMapping(a.name.value);
    }
  }

  /** Combines the outcomes of two consecutive stretches of drawing: the
      first failure wins, otherwise the draws are concatenated in order. */
  function Then(first: Result<seq<Draw>>, second: Result<seq<Draw>>): (r: Result<seq<Draw>>)
    ensures r.Success? <==> first.Success? && second.Success?
    ensures first.Failure? ==> r == first
    ensures first.Success? && second.Failure? ==> r == second
    ensures r.Success? ==> r.value == first.value + second.value
  {
    match first
    case Failure(e) => Failure(e)
    case Success(ds) =>
      match second
      case Failure(e) => Failure(e)
      case Success(es) => Success(ds + es)
  }

  /** Grouping does not matter when three stretches are combined. */
  lemma ThenAssociative(x: Result<seq<Draw>>, y: Result<seq<Draw>>, z: Result<seq<Draw>>)
    ensures Then(Then(x, y), z) == Then(x, Then(y, z))
  {
    if x.Success? && y.Success? && z.Success? {
      assert (x.value + y.value) + z.value == x.value + (y.value + z.value);
    }
  }

  /** Each annotation's outcome, in document order. */
  function AnnotationSteps(annots: seq<Annotation>, row: Row): (steps: seq<Result<seq<Draw>>>)
    ensures |steps| == |annots|
    ensures forall j :: 0 <= j < |annots| ==> steps[j] == AnnotationDraws(annots[j], row)
    decreases |annots|
  {
    if annots == [] then []
    else AnnotationSteps(annots[..|annots| - 1], row) + [AnnotationDraws(annots[|annots| - 1], row)]
  }

  /** The draws of one page: each annotation's in document order, stopping
      at the first error. */
  function PageDraws(annots: seq<Annotation>, row: Row): (r: Result<seq<Draw>>)
    ensures annots == [] ==> r == Success([])
    ensures r.Success? ==> |r.value| <= |annots|
    decreases |annots|
  {
    if annots == [] then Success([])
    else Then(PageDraws(annots[..|annots| - 1], row),
              AnnotationDraws(annots[|annots| - 1], row))
  }

  /** A page's draws are its annotations' outcomes collected in order, then
      concatenated. */
  lemma {:induction false} PageDrawsCollects(annots: seq<Annotation>, row: Row)
    ensures PageDraws(annots, row) ==
      match Collect(AnnotationSteps(annots, row))
      case Failure(e) => Failure(e)
      case Success(parts) => Success(Concat(parts))
    decreases |annots|
  {
    if annots != [] {
      var n := |annots| - 1;
      var steps := AnnotationSteps(annots, row);
      PageDrawsCollects(annots[..n], row);
      assert steps[..n] == AnnotationSteps(annots[..n], row);
      var pre := Collect(steps[..n]);
      if pre.Success? && steps[n].Success? {
        assert Collect(steps).value[..n] == pre.value;
      }
    }
  }

  /** Each template page's draws, page by page. */
  function PageSteps(template: Template, row: Row): (steps: seq<Result<OverlayPage>>)
    ensures |steps| == |template|
    ensures forall i :: 0 <= i < |template| ==> steps[i] == PageDraws(template[i].annots, row)
  {
    seq(|template|, i requires 0 <= i < |template| => PageDraws(template[i].annots, row))
  }

  /** The overlay of a template: one page per template page, stopping at the
      first error. */
  function OverlayOf(template: Template, row: Row): (r: Result<seq<OverlayPage>>)
    ensures r.Success? <==> forall i :: 0 <= i < |template| ==> PageDraws(template[i].annots, row).Success?
    ensures r.Success? ==> |r.value| == |template|
    ensures r.Success? ==> forall i :: 0 <= i < |template| ==> r.value[i] == PageDraws(template[i].annots, row).value
  {
    Collect(PageSteps(template, row))
  }

  /** Drawing a page in two stretches is drawing it in one: each
      annotation's contribution does not depend on its neighbours, and the
      draws keep the annotations' order. */
  lemma {:induction false} PageDrawsAppend(front: seq<Annotation>, back: seq<Annotation>, row: Row)
    ensures PageDraws(front + back, row) == Then(PageDraws(front, row), PageDraws(back, row))
    decreases |back|
  {
    if back == [] {
      assert front + back == front;
      var pre := PageDraws(front, row);
      if pre.Success? {
        assert pre.value + [] == pre.value;
      }
    } else {
      var n := |back| - 1;
      assert (front + back)[..|front + back| - 1] == front + back[..n];
      assert (front + back)[|front + back| - 1] == back[n];
      PageDrawsAppend(front, back[..n], row);
      ThenAssociative(PageDraws(front, row), PageDraws(back[..n], row), AnnotationDraws(back[n], row));
    }
  }

  /** A page with a single annotation draws what that annotation draws. */
  lemma PageDrawsOne(a: Annotation, row: Row)
    ensures PageDraws([a], row) == AnnotationDraws(a, row)
  {
    assert [a][..0] == [];
    var r := AnnotationDraws(a, row);
    if r.Success? {
      assert [] + r.value == r.value;
    }
  }

  /** An annotation that draws nothing leaves the rest of its page as it
      would be without it. */
  lemma SkippedFieldLeavesOthers(before: seq<Annotation>, a: Annotation, after: seq<Annotation>, row: Row)
    requires AnnotationDraws(a, row) == Success([])
    ensures PageDraws(before + [a] + after, row) == Then(PageDraws(before, row), PageDraws(after, row))
  {
    PageDrawsAppend(before + [a], after, row);
    PageDrawsAppend(before, [a], row);
    PageDrawsOne(a, row);
    var pre := PageDraws(before, row);
    if pre.Success? {
      assert pre.value + [] == pre.value;
    }
  }

  /** A page draws successfully exactly when each of its annotations does. */
  lemma PageDrawsSucceeds(annots: seq<Annotation>, row: Row)
    ensures PageDraws(annots, row).Success? <==>
            forall j :: 0 <= j < |annots| ==> AnnotationDraws(annots[j], row).Success?
  {
    PageDrawsCollects(annots, row);
  }

  /** When a page draws successfully, a text is on the page exactly when
      some annotation of the page draws it. */
  lemma PageDrawsContents(annots: seq<Annotation>, row: Row)
    ensures PageDraws(annots, row).Success? ==>
            forall d :: d in PageDraws(annots, row).value <==>
              exists j :: 0 <= j < |annots| && AnnotationDraws(annots[j], row) == Success([d])
  {
    var steps := AnnotationSteps(annots, row);
    PageDrawsCollects(annots, row);
    if Collect(steps).Success? {
      CollectedSingletons(steps);
    }
  }

  /** An error on annotation j, after the earlier annotations of the page
      drew without error, is the error of the whole page. */
  lemma AnnotationStopsPage(annots: seq<Annotation>, j: nat, row: Row)
    requires j < |annots|
    requires forall i :: 0 <= i < j ==> AnnotationDraws(annots[i], row).Success?
    requires AnnotationDraws(annots[j], row).Failure?
    ensures PageDraws(annots, row) == Failure(AnnotationDraws(annots[j], row).error)
  {
    PageDrawsCollects(annots, row);
    CollectStopsAtFirstFailure(AnnotationSteps(annots, row), j);
  }

  /** Once a stretch of a page has failed, the whole page fails with the
      same error. */
  lemma PageFailureIsFinal(annots: seq<Annotation>, j: nat, row: Row)
    requires j <= |annots| && PageDraws(annots[..j], row).Failure?
    ensures PageDraws(annots, row) == PageDraws(annots[..j], row)
  {
    assert annots == annots[..j] + annots[j..];
    PageDrawsAppend(annots[..j], annots[j..], row);
  }

  /** The drawing surface the overlay is produced on: the pages already
      finished and the texts drawn so far on the current page. */
  class Canvas {
    var pages: seq<OverlayPage>
    var current: OverlayPage

    constructor ()
      ensures pages == [] && current == []
    {
      pages := [];
      current := [];
    }

    /** Draws a text on the current page. */
    method DrawString(x: real, y: real, text: string)
      modifies this
      ensures pages == old(pages)
      ensures current == old(current) + [Draw(x, y, text)]
    {
      current := current + [Draw(x, y, text)];
    }

    /** Ends the current page, drawn or not, and starts a blank one. */
    method ShowPage()
      modifies this
      ensures pages == old(pages) + [old(current)]
      ensures current == []
    {
      pages := pages + [current];
      current := [];
    }
  }

  /** Handles one annotation: when it is named, has a rectangle, is in the
      table and its cell is present, draws the cell's text at the inset
      corner on the canvas's current page; returns the error it raises, if
      any. */
  method DrawField(c: Canvas, a: Annotation, row: Row) returns (failure: Option<Error>)
    modifies c
    ensures c.pages == old(c.pages)
    ensures failure.None? <==> AnnotationDraws(a, row).Success?
    ensures failure.Some? ==> AnnotationDraws(a, row) == Failure(failure.value)
    ensures failure.None? ==> c.current == old(c.current) + AnnotationDraws(a, row).value
    ensures failure.Some? ==> c.current == old(c.current)
  {
    failure := None;
    if a.name.Some? && a.rect != [] {
      var column := Column(a.name.value);
      if column.Some? {
        var value := CellAt(row, column.value);
        if value.Failure? {
          return Some(value.error);
        }
        if value.value.Present? {
          if |a.rect| != 4 {
            return Some(RectNotFourNumbers);
          }
          var x1, y1 := a.rect[0], a.rect[1];
          c.DrawString(x1 + InsetX, y1 + InsetY, value.value.text);
          return;
        }
      }
    }
    assert old(c.current) + [] == old(c.current);
  }

  /** Walks one page's annotations in order and draws each filled field on
      the canvas's current page; returns the first error, if any. On an
      error the canvas is abandoned by its caller, so what its current page
      then holds is left unsaid. */
  method DrawAnnotations(c: Canvas, annots: seq<Annotation>, row: Row) returns (failure: Option<Error>)
    modifies c
    ensures c.pages == old(c.pages)
    ensures failure.None? <==> PageDraws(annots, row).Success?
    ensures failure.Some? ==> PageDraws(annots, row) == Failure(failure.value)
    ensures failure.None? ==> c.current == old(c.current) + PageDraws(annots, row).value
  {
    for j := 0 to |annots|
      invariant c.pages == old(c.pages)
      invariant PageDraws(annots[..j], row).Success?
      invariant c.current == old(c.current) + PageDraws(annots[..j], row).value
    {
      assert annots[..j + 1][..j] == annots[..j];
      ghost var before := PageDraws(annots[..j], row).value;
      failure := DrawField(c, annots[j], row);
      if failure.Some? {
        PageFailureIsFinal(annots, j + 1, row);
        return;
      }
      ghost var added := AnnotationDraws(annots[j], row).value;
      assert old(c.current) + (before + added) == old(c.current) + before + added;
    }
    assert annots[..|annots|] == annots;
    failure := None;
  }

  /** Walks the template page by page, draws each page's filled fields on a
      canvas and closes every page; the result is the overlay OverlayOf
      specifies, or its first error. */
  method RenderOverlay(template: Template, row: Row) returns (r: Result<seq<OverlayPage>>)
    ensures r == OverlayOf(template, row)
  {
    var c := new Canvas();
    for i := 0 to |template|
      invariant c.current == []
      invariant |c.pages| == i
      invariant forall p :: 0 <= p < i ==> PageDraws(template[p].annots, row) == Success(c.pages[p])
    {
      var failure := DrawAnnotations(c, template[i].annots, row);
      if failure.Some? {
        PageStopsOverlay(template, i, row);
        return Failure(failure.value);
      }
      assert [] + PageDraws(template[i].annots, row).value == PageDraws(template[i].annots, row).value;
      c.ShowPage();
    }
    assert OverlayOf(template, row).value == c.pages;
    r := Success(c.pages);
  }

  /** An error on page i, after the earlier pages succeeded, is the error of
      the whole overlay: no later page is drawn. */
  lemma PageStopsOverlay(template: Template, i: nat, row: Row)
    requires i < |template|
    requires forall p :: 0 <= p < i ==> PageDraws(template[p].annots, row).Success?
    requires PageDraws(template[i].annots, row).Failure?
    ensures OverlayOf(template, row) == Failure(PageDraws(template[i].annots, row).error)
  {
    CollectStopsAtFirstFailure(PageSteps(template, row), i);
  }
}
