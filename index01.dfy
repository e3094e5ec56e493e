/**
 * index01.js, the second draft of the extractor: the same record and
 * catalog, a scan written with nested `forEach` callbacks that also skips a
 * match whose value index `k - 3` is negative, unit suffixes applied to the
 * whole record in place under a truthiness test, and the report assembled
 * with `map` and `join`.
 */
module Index01 {
  import opened Js
  import opened Lab
  import opened Units
  import opened Scan
  import Index

  /** `textArray.forEach(page => page.forEach((text, k) => nombresExamenes.forEach(...)))`. */
  method ScanPages(labDia: DiaExamen, pages: seq<seq<string>>)
    requires labDia.Valid()
    modifies labDia.Objects()
    ensures labDia.View() == ScanAll(Index01Js, old(labDia.View()), pages)
  {
    ghost var start := labDia.View();
    ghost var done: seq<Pos> := [];
    for i := 0 to |pages|
      invariant done == PagePositions(pages, i)
      invariant labDia.View() == Run(Index01Js, start, pages, done)
    {
      var page := pages[i];
      NextPage(pages, i);
      for k := 0 to |page|
        invariant done == PagePositions(pages, i) + TokenPositions(pages, i, k)
        invariant AllValid(pages, done)
        invariant labDia.View() == Run(Index01Js, start, pages, done)
      {
        TryNames(labDia, pages, i, k, start, done);
        done := done + NamePositions(i, k, |Catalog|);
        NextToken(pages, i, k);
      }
    }
  }

  /** `nombresExamenes.forEach(examName => ...)` for token `k` of page `i`. */
  method TryNames(labDia: DiaExamen, pages: seq<seq<string>>, i: nat, k: nat, ghost start: Report, ghost done: seq<Pos>)
    requires labDia.Valid() && i < |pages| && k < |pages[i]|
    requires AllValid(pages, done) && labDia.View() == Run(Index01Js, start, pages, done)
    modifies labDia.Objects()
    ensures AllValid(pages, done + NamePositions(i, k, |Catalog|))
    ensures labDia.View() == Run(Index01Js, start, pages, done + NamePositions(i, k, |Catalog|))
  {
    assert done + NamePositions(i, k, 0) == done;
    for j := 0 to |Catalog|
      invariant AllValid(pages, done + NamePositions(i, k, j))
      invariant labDia.View() == Run(Index01Js, start, pages, done + NamePositions(i, k, j))
    {
      TryName(labDia, pages[i], k, Catalog[j]);
      RunNextName(Index01Js, start, pages, done, i, k, j);
    }
  }

  /**
   * The callback body: return unless the stripped token is `examName`;
   * return when `k - 3` is negative or the token there is a sentinel;
   * otherwise the `switch` stores the value.
   */
  method TryName(labDia: DiaExamen, page: seq<string>, k: nat, examName: string)
    requires labDia.Valid() && k < |page|
    modifies labDia.Objects()
    ensures labDia.View() == Step(Index01Js, old(labDia.View()), page, k, examName)
  {
    var elementWithoutSpaces := StripLeading(page[k]);
    if elementWithoutSpaces != examName {
      return;
    }
    var valueIndex := k - 3;
    GuardIndex01Js(page, k);
    if valueIndex < 0 || At(page, valueIndex) == Str("Valor Referencia") || At(page, valueIndex) == Str("null") {
      return;
    }
    StoreValue(labDia, page, k, examName);
  }

  /**
   * The `switch (examName)`: `value` (the token at `k - 3`) for most cases,
   * `page[valueIndexSegmentados]`, `page[valueIndexLinfocitos]` and
   * `page[valueIndex2]` for the three names laid out differently.
   */
  method StoreValue(labDia: DiaExamen, page: seq<string>, k: nat, examName: string)
    requires labDia.Valid()
    modifies labDia.Objects()
    ensures labDia.View() == Store(old(labDia.View()), page, k, examName)
  {
    var valueIndex := k - 3;
    var valueIndex2 := k - 2;
    var valueIndexSegmentados := k + 21;
    var valueIndexLinfocitos := k + 20;
    var value := At(page, valueIndex);
    match Target(examName)
    case Some(f) =>
      if examName == "SEGMENTADO" {
        labDia.Set(f, At(page, valueIndexSegmentados));
      } else if examName == "LINFOCITOS " {
        labDia.Set(f, At(page, valueIndexLinfocitos));
      } else if examName == "INR" {
        labDia.Set(f, At(page, valueIndex2));
      } else {
        labDia.Set(f, value);
      }
    case None =>
  }

  /** The record after the unit steps of `formatResults` ran, and whether the last one threw. */
  datatype Applied = Applied(report: Report, threw: bool)

  /**
   * The start of `formatResults`: the blood-count units and the differential
   * on the hemograma, then the coagulation units, each under a truthiness
   * test. When the differential throws, the record stays as far as it got.
   */
  function UnitsApplied(r: Report, derive: (JsValue, string) -> string): Applied {
    var diff := Differential(BloodCounts(r.hemograma, IsTruthy), IsTruthy, derive);
    var counted := r.(hemograma := diff.props);
    if diff.threw then Applied(counted, true)
    else Applied(counted.(coagulacion := CoagulationUnits(r.coagulacion, IsTruthy)), false)
  }

  /** `formatResults` throws exactly when Segmentados is truthy and Linfocitos is not a string. */
  lemma UnitsAppliedThrows(r: Report, derive: (JsValue, string) -> string)
    ensures UnitsApplied(r, derive).threw <==>
              Truthy(Lookup(r.hemograma, Segmentados)) && !Lookup(r.hemograma, Linfocitos).Str?
  {
    BloodCountsLookup(r.hemograma, IsTruthy, Segmentados);
    BloodCountsLookup(r.hemograma, IsTruthy, Linfocitos);
    DifferentialLookup(BloodCounts(r.hemograma, IsTruthy), IsTruthy, derive, Hb);
  }

  /**
   * When nothing throws, the units change exactly these values: Leucocitos,
   * Plaquetas and Hto get their suffix when truthy; a truthy Segmentados
   * gets "%" and overwrites RAN, and Linfocitos likewise gets "%" and
   * overwrites RAL (both counts from the white cells as already suffixed);
   * TP and TTPK get their suffix when truthy. Every other value, and the
   * date and time, stay as they were.
   */
  lemma UnitsAppliedGet(r: Report, derive: (JsValue, string) -> string, id: SectionId, key: Field)
    requires !UnitsApplied(r, derive).threw
    ensures var h := r.hemograma;
            var seg, lin := Lookup(h, Segmentados), Lookup(h, Linfocitos);
            var leu := Suffixed(IsTruthy, Lookup(h, Leucocitos), "0");
            UnitsApplied(r, derive).report.Get(id, key) ==
              if id == Hemograma then
                if key == Leucocitos then leu
                else if key == Plaquetas then Suffixed(IsTruthy, Lookup(h, Plaquetas), ".000")
                else if key == Hto then Suffixed(IsTruthy, Lookup(h, Hto), "%")
                else if key == Segmentados then Suffixed(IsTruthy, seg, "%")
                else if key == RAN && Truthy(seg) then Str(derive(leu, RemoveFirstStar(seg.s)))
                else if key == Linfocitos && Truthy(seg) && lin.Str? then Str(lin.s + "%")
                else if key == RAL && Truthy(seg) && lin.Str? then Str(derive(leu, RemoveFirstStar(lin.s)))
                else Lookup(h, key)
              else if id == Coagulacion then
                if key == TP then Suffixed(IsTruthy, r.Get(Coagulacion, TP), "%")
                else if key == TTPK then Suffixed(IsTruthy, r.Get(Coagulacion, TTPK), " s")
                else r.Get(id, key)
              else r.Get(id, key)
    ensures UnitsApplied(r, derive).report.fecha == r.fecha && UnitsApplied(r, derive).report.hora == r.hora
  {
    if id == Hemograma {
      CountsLookup(r.hemograma, IsTruthy, derive, key);
    } else if id == Coagulacion {
      CoagulationUnitsLookup(r.coagulacion, IsTruthy, key);
    }
  }

  /**
   * `formatResults` is not idempotent: it mutates the record, so a second
   * call on the same record appends the units again.
   */
  lemma FormatTwice(r: Report, derive: (JsValue, string) -> string)
    requires Truthy(r.Get(Hemograma, Leucocitos)) && !UnitsApplied(r, derive).threw
    ensures var twice := UnitsApplied(UnitsApplied(r, derive).report, derive);
            !twice.threw && twice.report.Get(Hemograma, Leucocitos) == Str(r.Get(Hemograma, Leucocitos).s + "0" + "0")
  {
    var once := UnitsApplied(r, derive).report;
    UnitsAppliedThrows(r, derive);
    UnitsAppliedGet(r, derive, Hemograma, Leucocitos);
    UnitsAppliedGet(r, derive, Hemograma, Segmentados);
    UnitsAppliedGet(r, derive, Hemograma, Linfocitos);
    UnitsAppliedThrows(once, derive);
    UnitsAppliedGet(once, derive, Hemograma, Leucocitos);
  }

  /** The six `formatSection` strings, in display order. */
  function Sections(r: Report): seq<string> {
    [SectionLine(Title(Hemograma), r.hemograma), SectionLine(Title(FuncionRenal), r.funcionRenal),
     SectionLine(Title(Electrolitos), r.electrolitos), SectionLine(Title(FuncionHepatica), r.funcionHepatica),
     SectionLine(Title(Coagulacion), r.coagulacion), SectionLine(Title(Otros), r.otros)]
  }

  /** A record nothing was written to prints its six sections with no items. */
  lemma SectionsBlank(fecha: string, hora: string)
    ensures Sections(Initial(fecha, hora)) ==
              ["- " + Title(Hemograma) + ": ", "- " + Title(FuncionRenal) + ": ", "- " + Title(Electrolitos) + ": ",
               "- " + Title(FuncionHepatica) + ": ", "- " + Title(Coagulacion) + ": ", "- " + Title(Otros) + ": "]
  {
    BlankLine(Title(Hemograma), FieldNames(Hemograma));
    BlankLine(Title(FuncionRenal), FieldNames(FuncionRenal));
    BlankLine(Title(Electrolitos), FieldNames(Electrolitos));
    BlankLine(Title(FuncionHepatica), FieldNames(FuncionHepatica));
    BlankLine(Title(Coagulacion), FieldNames(Coagulacion));
    BlankLine(Title(Otros), FieldNames(Otros));
  }

  /** What `formatResults` returns for a scanned record: `None` when it throws. */
  function Result(r: Report, renderDate: (string, string) -> string, derive: (JsValue, string) -> string): Option<string> {
    var applied := UnitsApplied(r, derive);
    if applied.threw then None
    else Some(">" + renderDate(r.fecha, r.hora) + " " + r.hora + ":\n " + Join(Sections(applied.report), "\n "))
  }

  /** The text index01.js hands to `displayResults` for a document's pages. */
  function Output(pages: seq<seq<string>>, renderDate: (string, string) -> string, derive: (JsValue, string) -> string): Option<string> {
    match Stamp(pages)
    case None => None
    case Some((fecha, hora)) => Result(ScanAll(Index01Js, Initial(fecha, hora), pages), renderDate, derive)
  }

  /**
   * There is no output exactly when the first page has no token 13, or the
   * scanned hemograma has a truthy Segmentados and a Linfocitos that is not
   * a string.
   */
  lemma OutputNone(pages: seq<seq<string>>, renderDate: (string, string) -> string, derive: (JsValue, string) -> string)
    ensures Output(pages, renderDate, derive).None? <==>
              match Stamp(pages)
              case None => true
              case Some((fecha, hora)) =>
                var r := ScanAll(Index01Js, Initial(fecha, hora), pages);
                Truthy(Lookup(r.hemograma, Segmentados)) && !Lookup(r.hemograma, Linfocitos).Str?
  {
    match Stamp(pages)
    case None =>
    case Some((fecha, hora)) =>
      UnitsAppliedThrows(ScanAll(Index01Js, Initial(fecha, hora), pages), derive);
  }

  /** The `Promise.all` callback of `processPDF`: the record, the scan, then `formatResults`. */
  method ProcessPdf(pages: seq<seq<string>>, renderDate: (string, string) -> string, derive: (JsValue, string) -> string)
    returns (out: Option<string>)
    ensures out == Output(pages, renderDate, derive)
  {
    if |pages| == 0 || |pages[0]| <= 13 {
      return None;
    }
    var token := pages[0][13];
    var labDia := new DiaExamen(Substring(token, 0, 10), Substring(token, 11, 16));
    ScanPages(labDia, pages);
    out := FormatResults(labDia, renderDate, derive);
  }

  /**
   * `formatResults(labDia)`: the units are applied to the record in place,
   * then the six sections are printed behind the date and time.
   */
  method FormatResults(labDia: DiaExamen, renderDate: (string, string) -> string, derive: (JsValue, string) -> string)
    returns (out: Option<string>)
    requires labDia.Valid()
    modifies labDia.Objects()
    ensures labDia.View() == UnitsApplied(old(labDia.View()), derive).report
    ensures out == Result(old(labDia.View()), renderDate, derive)
  {
    var threw := ApplyUnits(labDia, derive);
    if threw {
      return None;
    }
    var formattedDate := renderDate(labDia.fecha, labDia.hora);
    var sections := Sections(labDia.View());
    out := Some(">" + formattedDate + " " + labDia.hora + ":\n " + Join(sections, "\n "));
  }

  /** The unit steps of `formatResults`, on the record's group objects. */
  method ApplyUnits(labDia: DiaExamen, derive: (JsValue, string) -> string) returns (threw: bool)
    requires labDia.Valid()
    modifies labDia.Objects()
    ensures labDia.View() == UnitsApplied(old(labDia.View()), derive).report
    ensures threw == UnitsApplied(old(labDia.View()), derive).threw
  {
    AppendUnit(labDia.hemograma, Leucocitos, "0");
    AppendUnit(labDia.hemograma, Plaquetas, ".000");
    AppendUnit(labDia.hemograma, Hto, "%");
    threw := DeriveCounts(labDia.hemograma, derive);
    if threw {
      return;
    }
    AppendUnit(labDia.coagulacion, TP, "%");
    AppendUnit(labDia.coagulacion, TTPK, " s");
  }

  /** `if (data.key) data.key += suffix`. */
  method AppendUnit(data: JsObject, key: Field, suffix: string)
    modifies data
    ensures data.props == AppendTo(old(data.props), key, suffix, IsTruthy)
  {
    if Truthy(Lookup(data.props, key)) {
      data.Put(key, Str(Lookup(data.props, key).s + suffix));
    }
  }

  /**
   * The `if (labDia.hemograma.Segmentados)` block: RAN and Segmentados, then
   * `Linfocitos.replace`, which throws unless Linfocitos is a string, then RAL
   * and Linfocitos.
   */
  method DeriveCounts(data: JsObject, derive: (JsValue, string) -> string) returns (threw: bool)
    modifies data
    ensures data.props == Differential(old(data.props), IsTruthy, derive).props
    ensures threw == Differential(old(data.props), IsTruthy, derive).threw
  {
    threw := false;
    if Truthy(Lookup(data.props, Segmentados)) {
      Index.CountFrom(data, Segmentados, RAN, derive);
      if !Lookup(data.props, Linfocitos).Str? {
        return true;
      }
      Index.CountFrom(data, Linfocitos, RAL, derive);
    }
  }
}
