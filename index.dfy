/**
 * index.js, the first draft of the extractor: one `diaExamen` filled by a
 * triple loop over pages, tokens and catalog names, then each group
 * formatted (units appended in place) and the lines appended to a header.
 */
module Index {
  import opened Js
  import opened Lab
  import opened Units
  import opened Scan

  /**
   * The triple loop: every page, every token, every catalog name; a match
   * whose token three places back is not a sentinel writes its field.
   */
  method ScanPages(labDia: DiaExamen, pages: seq<seq<string>>)
    requires labDia.Valid()
    modifies labDia.Objects()
    ensures labDia.View() == ScanAll(IndexJs, old(labDia.View()), pages)
  {
    ghost var start := labDia.View();
    ghost var done: seq<Pos> := [];
    for i := 0 to |pages|
      invariant done == PagePositions(pages, i)
      invariant labDia.View() == Run(IndexJs, start, pages, done)
    {
      var page := pages[i];
      NextPage(pages, i);
      for k := 0 to |page|
        invariant done == PagePositions(pages, i) + TokenPositions(pages, i, k)
        invariant AllValid(pages, done)
        invariant labDia.View() == Run(IndexJs, start, pages, done)
      {
        TryNames(labDia, pages, i, k, start, done);
        done := done + NamePositions(i, k, |Catalog|);
        NextToken(pages, i, k);
      }
    }
  }

  /** The innermost loop: every catalog name tried against token `k` of page `i`. */
  method TryNames(labDia: DiaExamen, pages: seq<seq<string>>, i: nat, k: nat, ghost start: Report, ghost done: seq<Pos>)
    requires labDia.Valid() && i < |pages| && k < |pages[i]|
    requires AllValid(pages, done) && labDia.View() == Run(IndexJs, start, pages, done)
    modifies labDia.Objects()
    ensures AllValid(pages, done + NamePositions(i, k, |Catalog|))
    ensures labDia.View() == Run(IndexJs, start, pages, done + NamePositions(i, k, |Catalog|))
  {
    assert done + NamePositions(i, k, 0) == done;
    for j := 0 to |Catalog|
      invariant AllValid(pages, done + NamePositions(i, k, j))
      invariant labDia.View() == Run(IndexJs, start, pages, done + NamePositions(i, k, j))
    {
      TryName(labDia, pages[i], k, Catalog[j]);
      RunNextName(IndexJs, start, pages, done, i, k, j);
    }
  }

  /**
   * The loop body: the token with its leading whitespace removed is compared
   * with catalog name `j`; on a match whose token three places back is not a
   * sentinel, the `switch` writes the name's field. `valueIndex < length`
   * always holds for a token index.
   */
  method TryName(labDia: DiaExamen, page: seq<string>, k: nat, examName: string)
    requires labDia.Valid() && k < |page|
    modifies labDia.Objects()
    ensures labDia.View() == Step(IndexJs, old(labDia.View()), page, k, examName)
  {
    var elementWithoutSpaces := StripLeading(page[k]);
    var valueIndex := k - 3;
    GuardIndexJs(page, k);
    if elementWithoutSpaces == examName && At(page, valueIndex) != Str("Valor Referencia") && At(page, valueIndex) != Str("null") {
      if valueIndex < |page| {
        StoreValue(labDia, page, k, examName);
      }
    }
  }

  /**
   * The `switch (examName)`: each case stores the token at its offset from
   * the name (`valueIndex`, or `valueIndex2`, `valueIndexSegmentados`,
   * `valueIndexLinfocitos` for the three names laid out differently).
   */
  method StoreValue(labDia: DiaExamen, page: seq<string>, k: nat, examName: string)
    requires labDia.Valid()
    modifies labDia.Objects()
    ensures labDia.View() == Store(old(labDia.View()), page, k, examName)
  {
    var valueIndex := k - 3;
    var valueIndex2 := k - 2;
    var valueIndexSegmentados := k + 21;
    var valueIndexLinfocitos := k + 20;
    match Target(examName)
    case Some(f) =>
      var at := if examName == "SEGMENTADO" then valueIndexSegmentados
                else if examName == "LINFOCITOS " then valueIndexLinfocitos
                else if examName == "INR" then valueIndex2
                else valueIndex;
      labDia.Set(f, At(page, at));
    case None =>
  }

  /**
   * What `formatSection` does to a group before printing it: the blood-count
   * suffixes, the differential, then the coagulation suffixes, each guarded
   * by `!= null`. Only the differential can throw.
   */
  function Formatted(props: seq<Prop>, derive: (JsValue, string) -> string): Outcome {
    var diff := Differential(BloodCounts(props, IsNonNull), IsNonNull, derive);
    if diff.threw then diff else Outcome(CoagulationUnits(diff.props, IsNonNull), false)
  }

  /**
   * `formatSection` throws exactly when Segmentados is set and Linfocitos is
   * not a string. Otherwise it suffixes the units, derives RAN and RAL from
   * the white-cell count as already suffixed with "0", changes no other value
   * and keeps the group's keys and their order.
   */
  lemma FormattedThrows(props: seq<Prop>, derive: (JsValue, string) -> string)
    ensures Formatted(props, derive).threw <==> Lookup(props, Segmentados).Str? && !Lookup(props, Linfocitos).Str?
  {
    BloodCountsLookup(props, IsNonNull, Segmentados);
    BloodCountsLookup(props, IsNonNull, Linfocitos);
    DifferentialLookup(BloodCounts(props, IsNonNull), IsNonNull, derive, Hb);
  }

  lemma FormattedLookup(props: seq<Prop>, derive: (JsValue, string) -> string, other: Field)
    ensures var seg, lin, o := Lookup(props, Segmentados), Lookup(props, Linfocitos), Formatted(props, derive);
            var leu := Suffixed(IsNonNull, Lookup(props, Leucocitos), "0");
            !o.threw ==>
              Lookup(o.props, other) ==
                if other == Leucocitos then leu
                else if other == Plaquetas then Suffixed(IsNonNull, Lookup(props, Plaquetas), ".000")
                else if other == Hto then Suffixed(IsNonNull, Lookup(props, Hto), "%")
                else if other == Segmentados then Suffixed(IsNonNull, seg, "%")
                else if other == RAN && seg.Str? then Str(derive(leu, RemoveFirstStar(seg.s)))
                else if other == Linfocitos && seg.Str? && lin.Str? then Str(lin.s + "%")
                else if other == RAL && seg.Str? && lin.Str? then Str(derive(leu, RemoveFirstStar(lin.s)))
                else if other == TP then Suffixed(IsNonNull, Lookup(props, TP), "%")
                else if other == TTPK then Suffixed(IsNonNull, Lookup(props, TTPK), " s")
                else Lookup(props, other)
  {
    var diff := Differential(BloodCounts(props, IsNonNull), IsNonNull, derive);
    if !diff.threw {
      CountsLookup(props, IsNonNull, derive, other);
      CoagulationUnitsLookup(diff.props, IsNonNull, other);
    }
  }

  /** A group that declares RAN and RAL keeps its keys and their order through `formatSection`. */
  lemma FormattedKeys(props: seq<Prop>, derive: (JsValue, string) -> string)
    requires RAN in Keys(props) && RAL in Keys(props)
    ensures Keys(Formatted(props, derive).props) == Keys(props)
  {
    var counts := BloodCounts(props, IsNonNull);
    BloodCountsLookup(props, IsNonNull, Hb);
    DifferentialLookup(counts, IsNonNull, derive, Hb);
    var diff := Differential(counts, IsNonNull, derive);
    if !diff.threw {
      CoagulationUnitsLookup(diff.props, IsNonNull, Hb);
    }
  }

  /**
   * `formatSection(title, data)`: appends the units to `data` in place and
   * returns `- title: key value, ...` over the entries that are not `null`;
   * `None` when reading Linfocitos throws.
   */
  method FormatSection(title: string, data: JsObject, derive: (JsValue, string) -> string) returns (line: Option<string>)
    modifies data
    ensures data.props == Formatted(old(data.props), derive).props
    ensures line == SectionResult(title, old(data.props), derive)
  {
    AppendUnit(data, Leucocitos, "0");
    AppendUnit(data, Plaquetas, ".000");
    AppendUnit(data, Hto, "%");
    var threw := DeriveCounts(data, derive);
    if threw {
      return None;
    }
    AppendUnit(data, TP, "%");
    AppendUnit(data, TTPK, " s");
    line := Some(SectionLine(title, data.props));
  }

  /** `if (data.key != null) data.key = data.key + suffix`. */
  method AppendUnit(data: JsObject, key: Field, suffix: string)
    modifies data
    ensures data.props == AppendTo(old(data.props), key, suffix, IsNonNull)
  {
    if LooselyNonNull(Lookup(data.props, key)) {
      data.Put(key, Str(Lookup(data.props, key).s + suffix));
    }
  }

  /**
   * The `data.Segmentados != null` block: RAN and Segmentados, then the read
   * of Linfocitos that throws when it is not a string, then RAL and
   * Linfocitos. `threw` reports the TypeError.
   */
  method DeriveCounts(data: JsObject, derive: (JsValue, string) -> string) returns (threw: bool)
    modifies data
    ensures data.props == Differential(old(data.props), IsNonNull, derive).props
    ensures threw == Differential(old(data.props), IsNonNull, derive).threw
  {
    threw := false;
    if LooselyNonNull(Lookup(data.props, Segmentados)) {
      CountFrom(data, Segmentados, RAN, derive);
      if !Lookup(data.props, Linfocitos).Str? {
        return true;
      }
      CountFrom(data, Linfocitos, RAL, derive);
    }
  }

  /**
   * `data.abs = derive(data.Leucocitos, data.pct.replace("*", ""))`, then
   * `data.pct = data.pct + "%"`.
   */
  method CountFrom(data: JsObject, pct: Field, abs: Field, derive: (JsValue, string) -> string)
    requires Lookup(data.props, pct).Str? && pct != abs && pct != Leucocitos
    modifies data
    ensures data.props == Counted(old(data.props), pct, abs, derive)
  {
    var count := derive(Lookup(data.props, Leucocitos), RemoveFirstStar(Lookup(data.props, pct).s));
    AssignElsewhere(data.props, abs, Str(count), pct);
    data.Put(abs, Str(count));
    data.Put(pct, Str(Lookup(data.props, pct).s + "%"));
  }

  /** What `formatSection(title, data)` returns: `None` when it throws. */
  function SectionResult(title: string, props: seq<Prop>, derive: (JsValue, string) -> string): Option<string> {
    var o := Formatted(props, derive);
    if o.threw then None else Some(SectionLine(title, o.props))
  }

  /**
   * The lines of the report, one `formatSection` call per group in display
   * order; `None` when one of them throws.
   */
  function Lines(r: Report, derive: (JsValue, string) -> string): Option<seq<string>> {
    var h, fr, el, fh, co, ot := SectionResult(Title(Hemograma), r.hemograma, derive),
      SectionResult(Title(FuncionRenal), r.funcionRenal, derive), SectionResult(Title(Electrolitos), r.electrolitos, derive),
      SectionResult(Title(FuncionHepatica), r.funcionHepatica, derive), SectionResult(Title(Coagulacion), r.coagulacion, derive),
      SectionResult(Title(Otros), r.otros, derive);
    if h.None? || fr.None? || el.None? || fh.None? || co.None? || ot.None? then None
    else Some([h.value, fr.value, el.value, fh.value, co.value, ot.value])
  }

  /**
   * The record after the six `formatSection` calls: each group in display
   * order is formatted in place, and the calls stop after the first one
   * that throws (its group keeps the steps that ran before the throw).
   */
  function Formatting(r: Report, derive: (JsValue, string) -> string): Report {
    var h, fr, el := Formatted(r.hemograma, derive), Formatted(r.funcionRenal, derive), Formatted(r.electrolitos, derive);
    var fh, co, ot := Formatted(r.funcionHepatica, derive), Formatted(r.coagulacion, derive), Formatted(r.otros, derive);
    if h.threw then r.(hemograma := h.props)
    else if fr.threw then r.(hemograma := h.props, funcionRenal := fr.props)
    else if el.threw then r.(hemograma := h.props, funcionRenal := fr.props, electrolitos := el.props)
    else if fh.threw then
      r.(hemograma := h.props, funcionRenal := fr.props, electrolitos := el.props, funcionHepatica := fh.props)
    else if co.threw then
      r.(hemograma := h.props, funcionRenal := fr.props, electrolitos := el.props, funcionHepatica := fh.props,
         coagulacion := co.props)
    else
      r.(hemograma := h.props, funcionRenal := fr.props, electrolitos := el.props, funcionHepatica := fh.props,
         coagulacion := co.props, otros := ot.props)
  }

  /** When no call throws, every group is formatted and the date and time stay. */
  lemma FormattingSome(r: Report, derive: (JsValue, string) -> string)
    requires Lines(r, derive).Some?
    ensures Formatting(r, derive).fecha == r.fecha && Formatting(r, derive).hora == r.hora
    ensures forall id :: Formatting(r, derive).Section(id) == Formatted(r.Section(id), derive).props
  {
    LinesSomeNoThrow(r, derive);
    var f := Formatting(r, derive);
    forall id
      ensures f.Section(id) == Formatted(r.Section(id), derive).props
    {
      match id
      case Hemograma => assert f.hemograma == Formatted(r.hemograma, derive).props;
      case FuncionRenal => assert f.funcionRenal == Formatted(r.funcionRenal, derive).props;
      case Electrolitos => assert f.electrolitos == Formatted(r.electrolitos, derive).props;
      case FuncionHepatica => assert f.funcionHepatica == Formatted(r.funcionHepatica, derive).props;
      case Coagulacion => assert f.coagulacion == Formatted(r.coagulacion, derive).props;
      case Otros => assert f.otros == Formatted(r.otros, derive).props;
    }
  }

  /** Six lines mean that none of the six `formatSection` calls threw. */
  lemma LinesSomeNoThrow(r: Report, derive: (JsValue, string) -> string)
    requires Lines(r, derive).Some?
    ensures !Formatted(r.hemograma, derive).threw && !Formatted(r.funcionRenal, derive).threw
    ensures !Formatted(r.electrolitos, derive).threw && !Formatted(r.funcionHepatica, derive).threw
    ensures !Formatted(r.coagulacion, derive).threw && !Formatted(r.otros, derive).threw
  {
    assert SectionResult(Title(Hemograma), r.hemograma, derive).Some?;
    assert SectionResult(Title(FuncionRenal), r.funcionRenal, derive).Some?;
    assert SectionResult(Title(Electrolitos), r.electrolitos, derive).Some?;
    assert SectionResult(Title(FuncionHepatica), r.funcionHepatica, derive).Some?;
    assert SectionResult(Title(Coagulacion), r.coagulacion, derive).Some?;
    assert SectionResult(Title(Otros), r.otros, derive).Some?;
  }

  /**
   * When the calls throw on a well-shaped record, it is the hemograma's that
   * throws, so only the hemograma has changed.
   */
  lemma FormattingThrows(r: Report, derive: (JsValue, string) -> string)
    requires r.WellShaped() && Lines(r, derive).None?
    ensures Formatting(r, derive) == r.(hemograma := Formatted(r.hemograma, derive).props)
  {
    OnlyHemogramaSegmentados(r);
    LinesThrow(r, derive);
    FormattedThrows(r.hemograma, derive);
  }

  /** Six pushes onto an empty array leave the six elements in push order. */
  lemma PushedInOrder(h: string, fr: string, el: string, fh: string, co: string, ot: string)
    ensures [] + [h] + [fr] + [el] + [fh] + [co] + [ot] == [h, fr, el, fh, co, ot]
  {
  }

  /** Six `formatSection` calls that do not throw make the six lines. */
  lemma LinesSome(r: Report, derive: (JsValue, string) -> string, h: string, fr: string, el: string, fh: string, co: string, ot: string)
    requires SectionResult(Title(Hemograma), r.hemograma, derive) == Some(h)
    requires SectionResult(Title(FuncionRenal), r.funcionRenal, derive) == Some(fr)
    requires SectionResult(Title(Electrolitos), r.electrolitos, derive) == Some(el)
    requires SectionResult(Title(FuncionHepatica), r.funcionHepatica, derive) == Some(fh)
    requires SectionResult(Title(Coagulacion), r.coagulacion, derive) == Some(co)
    requires SectionResult(Title(Otros), r.otros, derive) == Some(ot)
    ensures Lines(r, derive) == Some([h, fr, el, fh, co, ot])
  {
  }

  /** `finalString += "\n " + line` for each line, in order. */
  function Indented(lines: seq<string>): string {
    if lines == [] then "" else Indented(lines[..|lines| - 1]) + "\n " + lines[|lines| - 1]
  }

  lemma IndentedNext(lines: seq<string>, n: nat)
    requires n < |lines|
    ensures forall h: string :: h + Indented(lines[..n + 1]) == h + Indented(lines[..n]) + "\n " + lines[n]
  {
    assert lines[..n + 1][..n] == lines[..n];
  }

  /** Appending each line behind "\n " is joining the lines with "\n " behind one leading "\n ". */
  lemma {:induction false} IndentedJoin(lines: seq<string>)
    requires lines != []
    ensures Indented(lines) == "\n " + Join(lines, "\n ")
  {
    var front, last := lines[..|lines| - 1], lines[|lines| - 1];
    if front == [] {
      assert Indented(front) == "";
    } else {
      IndentedJoin(front);
      JoinSnoc(front, last, "\n ");
      assert front + [last] == lines;
    }
  }

  /**
   * Of the six groups of a well-shaped record only the hemograma can make
   * its `formatSection` throw, and it does exactly when its Segmentados is
   * set and its Linfocitos is not a string.
   */
  lemma LinesNone(r: Report, derive: (JsValue, string) -> string)
    requires r.WellShaped()
    ensures Lines(r, derive).None? <==> Lookup(r.hemograma, Segmentados).Str? && !Lookup(r.hemograma, Linfocitos).Str?
  {
    OnlyHemogramaSegmentados(r);
    LinesThrow(r, derive);
  }

  /** `LinesNone` for any record whose other five groups lack Segmentados. */
  lemma LinesThrow(r: Report, derive: (JsValue, string) -> string)
    requires Lookup(r.funcionRenal, Segmentados) == Undefined && Lookup(r.electrolitos, Segmentados) == Undefined
    requires Lookup(r.funcionHepatica, Segmentados) == Undefined && Lookup(r.coagulacion, Segmentados) == Undefined
    requires Lookup(r.otros, Segmentados) == Undefined
    ensures Lines(r, derive).None? <==> Lookup(r.hemograma, Segmentados).Str? && !Lookup(r.hemograma, Linfocitos).Str?
  {
    SectionResultNone(Title(Hemograma), r.hemograma, derive);
    SectionResultNone(Title(FuncionRenal), r.funcionRenal, derive);
    SectionResultNone(Title(Electrolitos), r.electrolitos, derive);
    SectionResultNone(Title(FuncionHepatica), r.funcionHepatica, derive);
    SectionResultNone(Title(Coagulacion), r.coagulacion, derive);
    SectionResultNone(Title(Otros), r.otros, derive);
  }

  /** One `formatSection` call throws exactly when `FormattedThrows` says. */
  lemma SectionResultNone(title: string, props: seq<Prop>, derive: (JsValue, string) -> string)
    ensures SectionResult(title, props, derive).None? <==>
              Lookup(props, Segmentados).Str? && !Lookup(props, Linfocitos).Str?
  {
    FormattedThrows(props, derive);
  }

  /** In a well-shaped record only the hemograma declares Segmentados. */
  lemma OnlyHemogramaSegmentados(r: Report)
    requires r.WellShaped()
    ensures Lookup(r.funcionRenal, Segmentados) == Undefined && Lookup(r.electrolitos, Segmentados) == Undefined
    ensures Lookup(r.funcionHepatica, Segmentados) == Undefined && Lookup(r.coagulacion, Segmentados) == Undefined
    ensures Lookup(r.otros, Segmentados) == Undefined
  {
    NoSegmentados(r, FuncionRenal);
    NoSegmentados(r, Electrolitos);
    NoSegmentados(r, FuncionHepatica);
    NoSegmentados(r, Coagulacion);
    NoSegmentados(r, Otros);
  }

  lemma NoSegmentados(r: Report, id: SectionId)
    requires r.WellShaped() && id != Hemograma
    ensures Lookup(r.Section(id), Segmentados) == Undefined
  {
    assert Keys(r.Section(id)) == FieldNames(id);
  }

  /** The report text for a scanned record: the header, then one indented line per group. */
  function Rendered(r: Report, renderDate: (string, string) -> string, derive: (JsValue, string) -> string): Option<string> {
    match Lines(r, derive)
    case None => None
    case Some(lines) => Some(">" + renderDate(r.fecha, r.hora) + " " + r.hora + ":" + Indented(lines))
  }

  /**
   * The text index.js writes to the output box for a document's pages: the
   * final string and a newline; `None` when the header token is missing or a
   * section throws.
   */
  function Output(pages: seq<seq<string>>, renderDate: (string, string) -> string, derive: (JsValue, string) -> string): Option<string> {
    match Stamp(pages)
    case None => None
    case Some((fecha, hora)) =>
      var text := Rendered(ScanAll(IndexJs, Initial(fecha, hora), pages), renderDate, derive);
      if text.None? then None else Some(text.value + "\n")
  }

  /**
   * There is no output exactly when the first page has no token 13, or the
   * scanned hemograma has Segmentados set and Linfocitos not a string.
   */
  lemma OutputNone(pages: seq<seq<string>>, renderDate: (string, string) -> string, derive: (JsValue, string) -> string)
    ensures Output(pages, renderDate, derive).None? <==>
              match Stamp(pages)
              case None => true
              case Some((fecha, hora)) =>
                var r := ScanAll(IndexJs, Initial(fecha, hora), pages);
                Lookup(r.hemograma, Segmentados).Str? && !Lookup(r.hemograma, Linfocitos).Str?
  {
    match Stamp(pages)
    case None =>
    case Some((fecha, hora)) =>
      InitialWellShaped(fecha, hora);
      LinesNone(ScanAll(IndexJs, Initial(fecha, hora), pages), derive);
  }

  /**
   * The extraction callback: the record from the header token, the scan, the
   * six sections in display order and the final string.
   */
  method Extract(pages: seq<seq<string>>, renderDate: (string, string) -> string, derive: (JsValue, string) -> string)
    returns (out: Option<string>)
    ensures out == Output(pages, renderDate, derive)
  {
    if |pages| == 0 || |pages[0]| <= 13 {
      return None;
    }
    var token := pages[0][13];
    var labDia := new DiaExamen(Substring(token, 0, 10), Substring(token, 11, 16));
    ScanPages(labDia, pages);
    var finalString := Render(labDia, renderDate, derive);
    if finalString.None? {
      return None;
    }
    out := Some(finalString.value + "\n");
  }

  /** The six `formatSection` calls in display order, then the final string. */
  method Render(labDia: DiaExamen, renderDate: (string, string) -> string, derive: (JsValue, string) -> string)
    returns (out: Option<string>)
    requires labDia.Valid()
    modifies labDia.Objects()
    ensures out == Rendered(old(labDia.View()), renderDate, derive)
    ensures labDia.View() == Formatting(old(labDia.View()), derive)
  {
    var formattedDate := renderDate(labDia.fecha, labDia.hora);
    var formattedTime := labDia.hora;
    var examenesStringsArray := FormatAll(labDia, derive);
    if examenesStringsArray.None? {
      return None;
    }
    var finalString := Append(">" + formattedDate + " " + formattedTime + ":", examenesStringsArray.value);
    return Some(finalString);
  }

  /** `finalString += "\n " + element` for each element, in order. */
  method Append(header: string, lines: seq<string>) returns (finalString: string)
    ensures finalString == header + Indented(lines)
  {
    finalString := header;
    for n := 0 to |lines|
      invariant finalString == header + Indented(lines[..n])
    {
      IndentedNext(lines, n);
      finalString := finalString + "\n " + lines[n];
    }
    assert lines[..|lines|] == lines;
  }

  /**
   * `examenesStringsArray.push(formatSection(title, labDia.group))` for each
   * group in display order.
   */
  method FormatAll(labDia: DiaExamen, derive: (JsValue, string) -> string) returns (lines: Option<seq<string>>)
    requires labDia.Valid()
    modifies labDia.Objects()
    ensures lines == Lines(old(labDia.View()), derive)
    ensures labDia.View() == Formatting(old(labDia.View()), derive)
  {
    ghost var r := labDia.View();
    var examenesStringsArray: seq<string> := [];
    assert labDia.hemograma.props == r.hemograma;
    var hemogramaLine := FormatSection(Title(Hemograma), labDia.hemograma, derive);
    assert labDia.View() == r.(hemograma := Formatted(r.hemograma, derive).props);
    assert hemogramaLine == SectionResult(Title(Hemograma), r.hemograma, derive);
    if hemogramaLine.None? {
      return None;
    }
    examenesStringsArray := examenesStringsArray + [hemogramaLine.value];
    assert labDia.funcionRenal.props == r.funcionRenal;
    var funcionRenalLine := FormatSection(Title(FuncionRenal), labDia.funcionRenal, derive);
    assert labDia.View() == r.(hemograma := Formatted(r.hemograma, derive).props, funcionRenal := Formatted(r.funcionRenal, derive).props);
    assert funcionRenalLine == SectionResult(Title(FuncionRenal), r.funcionRenal, derive);
    if funcionRenalLine.None? {
      return None;
    }
    examenesStringsArray := examenesStringsArray + [funcionRenalLine.value];
    assert labDia.electrolitos.props == r.electrolitos;
    var electrolitosLine := FormatSection(Title(Electrolitos), labDia.electrolitos, derive);
    assert labDia.View() == r.(hemograma := Formatted(r.hemograma, derive).props, funcionRenal := Formatted(r.funcionRenal, derive).props, electrolitos := Formatted(r.electrolitos, derive).props);
    assert electrolitosLine == SectionResult(Title(Electrolitos), r.electrolitos, derive);
    if electrolitosLine.None? {
      return None;
    }
    examenesStringsArray := examenesStringsArray + [electrolitosLine.value];
    assert labDia.funcionHepatica.props == r.funcionHepatica;
    var funcionHepaticaLine := FormatSection(Title(FuncionHepatica), labDia.funcionHepatica, derive);
    assert labDia.View() == r.(hemograma := Formatted(r.hemograma, derive).props, funcionRenal := Formatted(r.funcionRenal, derive).props, electrolitos := Formatted(r.electrolitos, derive).props, funcionHepatica := Formatted(r.funcionHepatica, derive).props);
    assert funcionHepaticaLine == SectionResult(Title(FuncionHepatica), r.funcionHepatica, derive);
    if funcionHepaticaLine.None? {
      return None;
    }
    examenesStringsArray := examenesStringsArray + [funcionHepaticaLine.value];
    assert labDia.coagulacion.props == r.coagulacion;
    var coagulacionLine := FormatSection(Title(Coagulacion), labDia.coagulacion, derive);
    assert labDia.View() == r.(hemograma := Formatted(r.hemograma, derive).props, funcionRenal := Formatted(r.funcionRenal, derive).props, electrolitos := Formatted(r.electrolitos, derive).props, funcionHepatica := Formatted(r.funcionHepatica, derive).props, coagulacion := Formatted(r.coagulacion, derive).props);
    assert coagulacionLine == SectionResult(Title(Coagulacion), r.coagulacion, derive);
    if coagulacionLine.None? {
      return None;
    }
    examenesStringsArray := examenesStringsArray + [coagulacionLine.value];
    assert labDia.otros.props == r.otros;
    var otrosLine := FormatSection(Title(Otros), labDia.otros, derive);
    assert labDia.View() == r.(hemograma := Formatted(r.hemograma, derive).props, funcionRenal := Formatted(r.funcionRenal, derive).props, electrolitos := Formatted(r.electrolitos, derive).props, funcionHepatica := Formatted(r.funcionHepatica, derive).props, coagulacion := Formatted(r.coagulacion, derive).props, otros := Formatted(r.otros, derive).props);
    assert otrosLine == SectionResult(Title(Otros), r.otros, derive);
    if otrosLine.None? {
      return None;
    }
    examenesStringsArray := examenesStringsArray + [otrosLine.value];
    PushedInOrder(hemogramaLine.value, funcionRenalLine.value, electrolitosLine.value,
      funcionHepaticaLine.value, coagulacionLine.value, otrosLine.value);
    LinesSome(r, derive, hemogramaLine.value, funcionRenalLine.value, electrolitosLine.value,
      funcionHepaticaLine.value, coagulacionLine.value, otrosLine.value);
    return Some(examenesStringsArray);
  }
}
