/**
 * How the two drafts relate. Their scans differ only in the guard: index.js
 * lets a match in the first three tokens of a page through, index01.js skips
 * it. There index.js stores `undefined` for a name read at `k - 3`, and the
 * token at the name's own offset for INR, SEGMENTADO and "LINFOCITOS ". Their
 * formatting differs only in the test before a unit is appended (`!= null`
 * against truthiness), which disagrees only on the empty string, and in the
 * newline index.js puts after the report.
 */
module Drafts {
  import opened Js
  import opened Lab
  import opened Units
  import opened Scan
  import Index
  import Index01

  /**
   * index.js, as written: a catalog name matched at token 0, 1 or 2 passes
   * the guard (reading `page[k - 3]` gives `undefined`, which is no
   * sentinel, and `k - 3 < page.length`), so a name read at `k - 3` stores
   * `undefined` in its field.
   */
  lemma IndexJsStoresUndefined(r: Report, page: seq<string>, k: nat, name: string)
    requires k < |page| && k < 3 && Matches(page[k], name) && Offset(name) == -3
    ensures Guard(IndexJs, page, k)
    ensures Step(IndexJs, r, page, k, name) == Store(r, page, k, name)
    ensures ValueFor(page, k, name) == Undefined
  {
    assert At(page, k - 3) == Undefined;
  }

  /** For instance, a page that starts with "HEMOGLOBINA" overwrites Hb with `undefined`. */
  lemma HemoglobinaFirst(r: Report)
    ensures Step(IndexJs, r, ["HEMOGLOBINA"], 0, "HEMOGLOBINA").Get(Hemograma, Hb) == Undefined
    ensures Step(Index01Js, r, ["HEMOGLOBINA"], 0, "HEMOGLOBINA") == r
  {
    var page := ["HEMOGLOBINA"];
    Hemoglobina();
    IndexJsStoresUndefined(r, page, 0, "HEMOGLOBINA");
    assert Store(r, page, 0, "HEMOGLOBINA") == Write(r, Hb, Undefined);
    Index01SkipsStart(r, page, 0, "HEMOGLOBINA");
  }

  /** "HEMOGLOBINA" matches itself, is read at `k - 3` and writes Hb. */
  lemma Hemoglobina()
    ensures Matches("HEMOGLOBINA", "HEMOGLOBINA") && Offset("HEMOGLOBINA") == -3
    ensures Target("HEMOGLOBINA") == Some(Hb)
  {
    assert StripLeading("HEMOGLOBINA") == "HEMOGLOBINA";
  }

  /**
   * A name whose value is not read at `k - 3` stores a real token even that
   * early: on the page "7.0", "x", "INR", index.js stores "7.0" for INR.
   */
  lemma InrEarly(r: Report)
    ensures Guard(IndexJs, ["7.0", "x", "INR"], 2)
    ensures Step(IndexJs, r, ["7.0", "x", "INR"], 2, "INR") == Store(r, ["7.0", "x", "INR"], 2, "INR")
    ensures ValueFor(["7.0", "x", "INR"], 2, "INR") == Str("7.0")
  {
    assert StripLeading("INR") == "INR";
  }

  /** index01.js, the correction: nothing in the first three tokens of a page writes anything. */
  lemma Index01SkipsStart(r: Report, page: seq<string>, k: nat, name: string)
    requires k < |page| && k < 3
    ensures Step(Index01Js, r, page, k, name) == r
    ensures Effect(Index01Js, page, k, name).None?
  {
    assert !Guard(Index01Js, page, k);
  }

  /** No position among `ps` matches a catalog name in the first three tokens of its page. */
  predicate NoEarlyMatch(pages: seq<seq<string>>, ps: seq<Pos>)
    requires AllValid(pages, ps)
  {
    forall n :: 0 <= n < |ps| ==> ps[n].k >= 3 || !Matches(pages[ps[n].i][ps[n].k], Catalog[ps[n].j])
  }

  /** Away from the first three tokens the two guards agree, so the two scans do the same. */
  lemma {:induction false} RunsAgree(r: Report, pages: seq<seq<string>>, ps: seq<Pos>)
    requires AllValid(pages, ps) && NoEarlyMatch(pages, ps)
    ensures Run(IndexJs, r, pages, ps) == Run(Index01Js, r, pages, ps)
  {
    if ps != [] {
      var front, p := ps[..|ps| - 1], ps[|ps| - 1];
      assert forall n :: 0 <= n < |front| ==> front[n] == ps[n];
      RunsAgree(r, pages, front);
      assert p == ps[|ps| - 1];
      if p.k >= 3 {
        assert Guard(IndexJs, pages[p.i], p.k) == Guard(Index01Js, pages[p.i], p.k);
      }
    }
  }

  /**
   * The two drafts fill the record identically from any pages in which no
   * catalog name appears among the first three tokens of a page.
   */
  lemma ScansAgree(r: Report, pages: seq<seq<string>>)
    requires forall i, k :: 0 <= i < |pages| && 0 <= k < |pages[i]| && k < 3 ==> StripLeading(pages[i][k]) !in Catalog
    ensures ScanAll(IndexJs, r, pages) == ScanAll(Index01Js, r, pages)
  {
    var ps := AllPositions(pages);
    forall n | 0 <= n < |ps|
      ensures ps[n].k >= 3 || !Matches(pages[ps[n].i][ps[n].k], Catalog[ps[n].j])
    {
      assert ValidPos(pages, ps[n]);
      assert Catalog[ps[n].j] in Catalog;
    }
    RunsAgree(r, pages, ps);
  }

  /** None of the values that get a unit is the empty string. */
  predicate NoEmptyUnits(r: Report) {
    NoEmptyBloodCounts(r.hemograma) && NoEmptyCoagulation(r.coagulacion)
  }

  predicate NoEmptyBloodCounts(props: seq<Prop>) {
    && Lookup(props, Leucocitos) != Str("") && Lookup(props, Plaquetas) != Str("")
    && Lookup(props, Hto) != Str("") && Lookup(props, Segmentados) != Str("")
  }

  predicate NoEmptyCoagulation(props: seq<Prop>) {
    Lookup(props, TP) != Str("") && Lookup(props, TTPK) != Str("")
  }

  /** The hemograma declares RAN and RAL but neither coagulation key. */
  predicate HemogramaShape(props: seq<Prop>) {
    var ks := Keys(props); RAN in ks && RAL in ks && TP !in ks && TTPK !in ks
  }

  /** The coagulation group declares no blood-count key. */
  predicate CoagulacionShape(props: seq<Prop>) {
    var ks := Keys(props); Leucocitos !in ks && Plaquetas !in ks && Hto !in ks && Segmentados !in ks
  }

  /** `!= null` and truthiness agree on every value but the empty string. */
  lemma BloodCountsAgree(props: seq<Prop>)
    requires Lookup(props, Leucocitos) != Str("") && Lookup(props, Plaquetas) != Str("") && Lookup(props, Hto) != Str("")
    ensures BloodCounts(props, IsNonNull) == BloodCounts(props, IsTruthy)
  {
    var a := AppendTo(props, Leucocitos, "0", IsNonNull);
    AppendToLookup(props, Leucocitos, "0", IsNonNull, Plaquetas);
    AppendToLookup(props, Leucocitos, "0", IsNonNull, Hto);
    AppendToLookup(a, Plaquetas, ".000", IsNonNull, Hto);
  }

  /** index.js formats the hemograma as index01.js does, throwing in the same cases. */
  lemma HemogramaAgrees(props: seq<Prop>, derive: (JsValue, string) -> string)
    requires HemogramaShape(props) && NoEmptyBloodCounts(props)
    ensures var diff := Differential(BloodCounts(props, IsTruthy), IsTruthy, derive);
            Index.Formatted(props, derive).threw == diff.threw
            && (!diff.threw ==> Index.Formatted(props, derive).props == diff.props)
  {
    BloodCountsAgree(props);
    var counts := BloodCounts(props, IsTruthy);
    BloodCountsLookup(props, IsTruthy, Segmentados);
    DifferentialAgrees(counts, derive);
    DifferentialLookup(counts, IsTruthy, derive, Hb);
    var diff := Differential(counts, IsTruthy, derive);
    if !diff.threw {
      Untouched(diff.props);
    }
  }

  /** The differential's test agrees between the drafts unless Segmentados is the empty string. */
  lemma DifferentialAgrees(props: seq<Prop>, derive: (JsValue, string) -> string)
    requires Lookup(props, Segmentados) != Str("")
    ensures Differential(props, IsNonNull, derive) == Differential(props, IsTruthy, derive)
  {
    assert Present(IsNonNull, Lookup(props, Segmentados)) == Present(IsTruthy, Lookup(props, Segmentados));
  }

  /** Neither coagulation unit applies to a group without TP and TTPK. */
  lemma Untouched(props: seq<Prop>)
    requires TP !in Keys(props) && TTPK !in Keys(props)
    ensures CoagulationUnits(props, IsNonNull) == props
  {
  }

  /** index.js formats the coagulation group as index01.js does. */
  lemma CoagulacionAgrees(props: seq<Prop>, derive: (JsValue, string) -> string)
    requires CoagulacionShape(props) && NoEmptyCoagulation(props)
    ensures !Index.Formatted(props, derive).threw
    ensures Index.Formatted(props, derive).props == CoagulationUnits(props, IsTruthy)
  {
    Unchanged(props, derive);
    CoagulationAgree(props);
  }

  /** The coagulation units of the two drafts agree unless TP or TTPK is the empty string. */
  lemma CoagulationAgree(props: seq<Prop>)
    requires Lookup(props, TP) != Str("") && Lookup(props, TTPK) != Str("")
    ensures CoagulationUnits(props, IsNonNull) == CoagulationUnits(props, IsTruthy)
  {
    AppendToLookup(props, TP, "%", IsNonNull, TTPK);
  }

  /** The blood-count steps and the differential leave a group without those keys alone. */
  lemma Unchanged(props: seq<Prop>, derive: (JsValue, string) -> string)
    requires Leucocitos !in Keys(props) && Plaquetas !in Keys(props) && Hto !in Keys(props) && Segmentados !in Keys(props)
    ensures Differential(BloodCounts(props, IsNonNull), IsNonNull, derive) == Outcome(props, false)
  {
  }

  /** index.js leaves the four groups without units as they are, as index01.js does. */
  lemma OtherAgrees(props: seq<Prop>, derive: (JsValue, string) -> string)
    requires NoUnitKeys(props)
    ensures Index.Formatted(props, derive) == Outcome(props, false)
  {
    Unchanged(props, derive);
    Untouched(props);
  }

  /** The four groups other than hemograma and coagulación declare none of the keys that get units. */
  lemma OtherKeys(r: Report)
    requires r.WellShaped()
    ensures NoUnitKeys(r.funcionRenal) && NoUnitKeys(r.electrolitos)
    ensures NoUnitKeys(r.funcionHepatica) && NoUnitKeys(r.otros)
  {
    assert Keys(r.Section(FuncionRenal)) == FieldNames(FuncionRenal);
    assert Keys(r.Section(Electrolitos)) == FieldNames(Electrolitos);
    assert Keys(r.Section(FuncionHepatica)) == FieldNames(FuncionHepatica);
    assert Keys(r.Section(Otros)) == FieldNames(Otros);
    UnitKeys(FuncionRenal);
    UnitKeys(Electrolitos);
    UnitKeys(FuncionHepatica);
    UnitKeys(Otros);
  }

  predicate NoUnitKeys(props: seq<Prop>) {
    var ks := Keys(props);
    Leucocitos !in ks && Plaquetas !in ks && Hto !in ks && Segmentados !in ks && TP !in ks && TTPK !in ks
  }

  lemma UnitKeys(id: SectionId)
    requires id != Hemograma && id != Coagulacion
    ensures var ks := FieldNames(id);
            Leucocitos !in ks && Plaquetas !in ks && Hto !in ks && Segmentados !in ks && TP !in ks && TTPK !in ks
  {
    match id
    case Electrolitos =>
    case FuncionHepatica =>
    case FuncionRenal =>
    case Otros =>
  }

  /** In a well-shaped record the hemograma and coagulación groups have the keys `LinesOf` needs. */
  lemma HemogramaKeys(r: Report)
    requires r.WellShaped()
    ensures HemogramaShape(r.hemograma) && CoagulacionShape(r.coagulacion)
  {
    assert Keys(r.Section(Hemograma)) == FieldNames(Hemograma);
    assert Keys(r.Section(Coagulacion)) == FieldNames(Coagulacion);
  }

  /** index.js's six lines are index01.js's six sections, and both throw in the same cases. */
  lemma LinesAgree(r: Report, derive: (JsValue, string) -> string)
    requires r.WellShaped() && NoEmptyUnits(r)
    ensures var applied := Index01.UnitsApplied(r, derive);
            Index.Lines(r, derive) == if applied.threw then None else Some(Index01.Sections(applied.report))
  {
    HemogramaKeys(r);
    OtherKeys(r);
    LinesOf(r, derive);
  }

  /** `LinesAgree` for any record whose groups declare the keys they do in a well-shaped one. */
  lemma LinesOf(r: Report, derive: (JsValue, string) -> string)
    requires HemogramaShape(r.hemograma) && CoagulacionShape(r.coagulacion)
    requires NoUnitKeys(r.funcionRenal) && NoUnitKeys(r.electrolitos)
    requires NoUnitKeys(r.funcionHepatica) && NoUnitKeys(r.otros)
    requires NoEmptyUnits(r)
    ensures var applied := Index01.UnitsApplied(r, derive);
            Index.Lines(r, derive) == if applied.threw then None else Some(Index01.Sections(applied.report))
  {
    var diff := Differential(BloodCounts(r.hemograma, IsTruthy), IsTruthy, derive);
    AppliedGroups(r, derive);
    HemogramaLine(Title(Hemograma), r.hemograma, derive);
    if diff.threw {
      assert Index.SectionResult(Title(Hemograma), r.hemograma, derive).None?;
    } else {
      LinesPrinted(r, derive, diff.props);
    }
  }

  /** When the hemograma does not throw, index.js's lines are index01.js's sections. */
  lemma LinesPrinted(r: Report, derive: (JsValue, string) -> string, hemograma: seq<Prop>)
    requires CoagulacionShape(r.coagulacion) && NoEmptyCoagulation(r.coagulacion)
    requires NoUnitKeys(r.funcionRenal) && NoUnitKeys(r.electrolitos)
    requires NoUnitKeys(r.funcionHepatica) && NoUnitKeys(r.otros)
    requires Index.SectionResult(Title(Hemograma), r.hemograma, derive) == Some(SectionLine(Title(Hemograma), hemograma))
    requires var a := Index01.UnitsApplied(r, derive);
             && !a.threw && a.report.hemograma == hemograma
             && a.report.funcionRenal == r.funcionRenal && a.report.electrolitos == r.electrolitos
             && a.report.funcionHepatica == r.funcionHepatica && a.report.otros == r.otros
             && a.report.coagulacion == CoagulationUnits(r.coagulacion, IsTruthy)
    ensures Index.Lines(r, derive) == Some(Index01.Sections(Index01.UnitsApplied(r, derive).report))
  {
    CoagulacionLine(Title(Coagulacion), r.coagulacion, derive);
    OtherLine(Title(FuncionRenal), r.funcionRenal, derive);
    OtherLine(Title(Electrolitos), r.electrolitos, derive);
    OtherLine(Title(FuncionHepatica), r.funcionHepatica, derive);
    OtherLine(Title(Otros), r.otros, derive);
    Index.LinesSome(r, derive, SectionLine(Title(Hemograma), hemograma), SectionLine(Title(FuncionRenal), r.funcionRenal),
      SectionLine(Title(Electrolitos), r.electrolitos), SectionLine(Title(FuncionHepatica), r.funcionHepatica),
      SectionLine(Title(Coagulacion), CoagulationUnits(r.coagulacion, IsTruthy)), SectionLine(Title(Otros), r.otros));
  }

  /** The groups of index01.js's record after `formatResults`. */
  lemma AppliedGroups(r: Report, derive: (JsValue, string) -> string)
    ensures var diff := Differential(BloodCounts(r.hemograma, IsTruthy), IsTruthy, derive);
            var a := Index01.UnitsApplied(r, derive);
            && a.threw == diff.threw && a.report.hemograma == diff.props
            && a.report.funcionRenal == r.funcionRenal && a.report.electrolitos == r.electrolitos
            && a.report.funcionHepatica == r.funcionHepatica && a.report.otros == r.otros
            && (!diff.threw ==> a.report.coagulacion == CoagulationUnits(r.coagulacion, IsTruthy))
  {
  }

  /** index.js's hemograma line is index01.js's, or both throw. */
  lemma HemogramaLine(title: string, props: seq<Prop>, derive: (JsValue, string) -> string)
    requires HemogramaShape(props) && NoEmptyBloodCounts(props)
    ensures var diff := Differential(BloodCounts(props, IsTruthy), IsTruthy, derive);
            Index.SectionResult(title, props, derive) == if diff.threw then None else Some(SectionLine(title, diff.props))
  {
    HemogramaAgrees(props, derive);
  }

  /** index.js's coagulación line is index01.js's. */
  lemma CoagulacionLine(title: string, props: seq<Prop>, derive: (JsValue, string) -> string)
    requires CoagulacionShape(props) && NoEmptyCoagulation(props)
    ensures Index.SectionResult(title, props, derive) == Some(SectionLine(title, CoagulationUnits(props, IsTruthy)))
  {
    CoagulacionAgrees(props, derive);
  }

  /** index.js prints a group without unit keys as it stands, as index01.js does. */
  lemma OtherLine(title: string, props: seq<Prop>, derive: (JsValue, string) -> string)
    requires NoUnitKeys(props)
    ensures Index.SectionResult(title, props, derive) == Some(SectionLine(title, props))
  {
    OtherAgrees(props, derive);
  }

  /** Both drafts render a well-shaped record with no empty unit values to the same text. */
  lemma RenderingsAgree(r: Report, renderDate: (string, string) -> string, derive: (JsValue, string) -> string)
    requires r.WellShaped() && NoEmptyUnits(r)
    ensures Index.Rendered(r, renderDate, derive) == Index01.Result(r, renderDate, derive)
  {
    LinesAgree(r, derive);
    var applied := Index01.UnitsApplied(r, derive);
    if !applied.threw {
      var sections := Index01.Sections(applied.report);
      Index.IndentedJoin(sections);
      HeaderJoin(">" + renderDate(r.fecha, r.hora) + " " + r.hora, Join(sections, "\n "));
    }
  }

  /** index.js's `":"` followed by `"\n " + line` for the first line is index01.js's `":\n "` before the joined lines. */
  lemma HeaderJoin(header: string, joined: string)
    ensures header + ":" + ("\n " + joined) == header + ":\n " + joined
  {
    assert ":" + "\n " == ":\n ";
  }

  /**
   * Given a document in which no catalog name opens a page and no value
   * that gets a unit is the empty string, index.js shows what index01.js
   * shows, followed by a newline; and neither shows anything when the
   * other does not.
   */
  lemma OutputsAgree(pages: seq<seq<string>>, renderDate: (string, string) -> string, derive: (JsValue, string) -> string)
    requires forall i, k :: 0 <= i < |pages| && 0 <= k < |pages[i]| && k < 3 ==> StripLeading(pages[i][k]) !in Catalog
    requires match Stamp(pages)
             case None => true
             case Some((fecha, hora)) => NoEmptyUnits(ScanAll(Index01Js, Initial(fecha, hora), pages))
    ensures Index.Output(pages, renderDate, derive) ==
              match Index01.Output(pages, renderDate, derive)
              case None => None
              case Some(text) => Some(text + "\n")
  {
    match Stamp(pages)
    case None =>
    case Some((fecha, hora)) =>
      ScansAgree(Initial(fecha, hora), pages);
      InitialWellShaped(fecha, hora);
      RenderingsAgree(ScanAll(Index01Js, Initial(fecha, hora), pages), renderDate, derive);
  }
}
