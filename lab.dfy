/**
 * The lab-day record (`diaExamen`), the exam catalog (`nombresExamenes`) and
 * the name-to-field table of the extraction `switch`, as both drafts of the
 * extractor declare them, plus the rendering of one report section.
 */
module Lab {
  import opened Js

  /** The property names of the record's groups (rendered by `KeyName`). */
  datatype Field =
    | Hb | Hto | VCM | CHCM | Leucocitos | Segmentados | RAN | Linfocitos | RAL | Plaquetas
    | Na | K | Cl | Ca | P | Mg
    | GOT | GPT | GGT | FA | BiliT | BiliD | Proteinas | Albumina
    | TTPK | TP | INR
    | BUN | Crea | AcUrico
    | LDH | PCR | Glucosa | TSH | T4L

  /** The property name as written in the source, which is also how it is printed. */
  function KeyName(f: Field): string {
    match f
    case Hb => "Hb" case Hto => "Hto" case VCM => "VCM" case CHCM => "CHCM"
    case Leucocitos => "Leucocitos" case Segmentados => "Segmentados" case RAN => "RAN"
    case Linfocitos => "Linfocitos" case RAL => "RAL" case Plaquetas => "Plaquetas"
    case Na => "Na" case K => "K" case Cl => "Cl" case Ca => "Ca" case P => "P" case Mg => "Mg"
    case GOT => "GOT" case GPT => "GPT" case GGT => "GGT" case FA => "FA"
    case BiliT => "BiliT" case BiliD => "BiliD" case Proteinas => "Proteinas" case Albumina => "Albumina"
    case TTPK => "TTPK" case TP => "TP" case INR => "INR"
    case BUN => "BUN" case Crea => "Crea" case AcUrico => "AcUrico"
    case LDH => "LDH" case PCR => "PCR" case Glucosa => "Glucosa" case TSH => "TSH" case T4L => "T4L"
  }

  /** One own property of a plain JavaScript object; objects keep insertion order. */
  datatype Prop = Prop(key: Field, value: JsValue)

  function Keys(props: seq<Prop>): (ks: seq<Field>)
    ensures |ks| == |props|
  {
    if props == [] then [] else [props[0].key] + Keys(props[1..])
  }

  /** `obj[key]`: the value of the property named `key`, `undefined` if there is none. */
  function Lookup(props: seq<Prop>, key: Field): (v: JsValue)
    ensures key !in Keys(props) ==> v == Undefined
  {
    if props == [] then Undefined
    else if props[0].key == key then props[0].value
    else Lookup(props[1..], key)
  }

  /**
   * `obj[key] = v`: an existing property is updated where it stands (so the
   * key order does not change); a new one is appended.
   */
  function Assign(props: seq<Prop>, key: Field, v: JsValue): (r: seq<Prop>)
    ensures Lookup(r, key) == v
    ensures key in Keys(props) ==> Keys(r) == Keys(props)
    ensures key !in Keys(props) ==> Keys(r) == Keys(props) + [key]
  {
    if props == [] then [Prop(key, v)]
    else if props[0].key == key then
      assert ([Prop(key, v)] + props[1..])[1..] == props[1..];
      [Prop(key, v)] + props[1..]
    else
      var rest := Assign(props[1..], key, v);
      assert ([props[0]] + rest)[1..] == rest;
      [props[0]] + rest
  }

  /** Assigning one key leaves every other key reading as before. */
  lemma {:induction false} AssignElsewhere(props: seq<Prop>, key: Field, v: JsValue, other: Field)
    requires other != key
    ensures Lookup(Assign(props, key, v), other) == Lookup(props, other)
  {
    if props != [] && props[0].key != key {
      AssignElsewhere(props[1..], key, v, other);
      AssignPast(props, key, v, other);
    } else if props != [] {
      AssignHere(props, key, v, other);
    }
  }

  /** The step of `AssignElsewhere` where the first property is the assigned one. */
  lemma AssignHere(props: seq<Prop>, key: Field, v: JsValue, other: Field)
    requires other != key && props != [] && props[0].key == key
    ensures Lookup(Assign(props, key, v), other) == Lookup(props, other)
  {
    assert Assign(props, key, v)[1..] == props[1..];
  }

  /** The step of `AssignElsewhere` where the assigned key lies further on. */
  lemma AssignPast(props: seq<Prop>, key: Field, v: JsValue, other: Field)
    requires other != key && props != [] && props[0].key != key
    requires Lookup(Assign(props[1..], key, v), other) == Lookup(props[1..], other)
    ensures Lookup(Assign(props, key, v), other) == Lookup(props, other)
  {
    assert Assign(props, key, v)[1..] == Assign(props[1..], key, v);
  }

  /** A plain JavaScript object whose properties are updated in place. */
  class JsObject {
    var props: seq<Prop>

    constructor (props: seq<Prop>)
      ensures this.props == props
    {
      this.props := props;
    }

    method Put(key: Field, v: JsValue)
      modifies this
      ensures props == Assign(old(props), key, v)
    {
      props := Assign(props, key, v);
    }
  }

  /** The six groups of `diaExamen`. */
  datatype SectionId = Hemograma | Electrolitos | FuncionHepatica | Coagulacion | FuncionRenal | Otros

  /** The keys of each group, in declaration order (index.js:6-63, index01.js:5-25). */
  function FieldNames(id: SectionId): seq<Field> {
    match id
    case Hemograma => [Hb, Hto, VCM, CHCM, Leucocitos, Segmentados, RAN, Linfocitos, RAL, Plaquetas]
    case Electrolitos => [Na, K, Cl, Ca, P, Mg]
    case FuncionHepatica => [GOT, GPT, GGT, FA, BiliT, BiliD, Proteinas, Albumina]
    case Coagulacion => [TTPK, TP, INR]
    case FuncionRenal => [BUN, Crea, AcUrico]
    case Otros => [LDH, PCR, Glucosa, TSH, T4L]
  }

  /** The group that declares a field. */
  function SectionOf(f: Field): (id: SectionId)
    ensures f in FieldNames(id)
  {
    match f
    case Hb | Hto | VCM | CHCM | Leucocitos | Segmentados | RAN | Linfocitos | RAL | Plaquetas => Hemograma
    case Na | K | Cl | Ca | P | Mg => Electrolitos
    case GOT | GPT | GGT | FA | BiliT | BiliD | Proteinas | Albumina => FuncionHepatica
    case TTPK | TP | INR => Coagulacion
    case BUN | Crea | AcUrico => FuncionRenal
    case LDH | PCR | Glucosa | TSH | T4L => Otros
  }

  /** No group declares a key twice. */
  lemma FieldNamesDistinct(id: SectionId, i: nat, j: nat)
    requires i < j < |FieldNames(id)|
    ensures FieldNames(id)[i] != FieldNames(id)[j]
  {
    match id
    case Hemograma =>
    case Electrolitos =>
    case FuncionHepatica =>
    case Coagulacion =>
    case FuncionRenal =>
    case Otros =>
  }

  /** A group as the constructor builds it: every declared key, all `null`. */
  function Blank(keys: seq<Field>): seq<Prop> {
    seq(|keys|, i requires 0 <= i < |keys| => Prop(keys[i], Null))
  }

  /** A blank group has exactly the given keys, each reading `null`; any other key reads `undefined`. */
  lemma {:induction false} BlankLookup(keys: seq<Field>, key: Field)
    ensures Keys(Blank(keys)) == keys
    ensures Lookup(Blank(keys), key) == if key in keys then Null else Undefined
  {
    if keys != [] {
      assert Blank(keys)[1..] == Blank(keys[1..]);
      BlankLookup(keys[1..], key);
      assert keys == [keys[0]] + keys[1..];
    }
  }

  /** The value of a `diaExamen`: date and time strings and the six groups. */
  datatype Report = Report(
    fecha: string, hora: string,
    hemograma: seq<Prop>, electrolitos: seq<Prop>, funcionHepatica: seq<Prop>,
    coagulacion: seq<Prop>, funcionRenal: seq<Prop>, otros: seq<Prop>)
  {
    function Section(id: SectionId): seq<Prop> {
      match id
      case Hemograma => hemograma
      case Electrolitos => electrolitos
      case FuncionHepatica => funcionHepatica
      case Coagulacion => coagulacion
      case FuncionRenal => funcionRenal
      case Otros => otros
    }

    function WithSection(id: SectionId, props: seq<Prop>): (r: Report)
      ensures r.Section(id) == props
      ensures forall other :: other != id ==> r.Section(other) == Section(other)
      ensures r.fecha == fecha && r.hora == hora
    {
      match id
      case Hemograma => this.(hemograma := props)
      case Electrolitos => this.(electrolitos := props)
      case FuncionHepatica => this.(funcionHepatica := props)
      case Coagulacion => this.(coagulacion := props)
      case FuncionRenal => this.(funcionRenal := props)
      case Otros => this.(otros := props)
    }

    /** The value of field `key` of group `id`. */
    function Get(id: SectionId, key: Field): JsValue {
      Lookup(Section(id), key)
    }

    /** Every group has exactly its declared keys, in declaration order. */
    predicate WellShaped() {
      forall id :: Keys(Section(id)) == FieldNames(id)
    }
  }

  /** `new diaExamen(fecha, hora)`. */
  function Initial(fecha: string, hora: string): Report {
    Report(fecha, hora,
      Blank(FieldNames(Hemograma)), Blank(FieldNames(Electrolitos)),
      Blank(FieldNames(FuncionHepatica)), Blank(FieldNames(Coagulacion)),
      Blank(FieldNames(FuncionRenal)), Blank(FieldNames(Otros)))
  }

  /** A new record has exactly the declared keys in every group... */
  lemma InitialWellShaped(fecha: string, hora: string)
    ensures Initial(fecha, hora).WellShaped()
  {
    forall id ensures Keys(Initial(fecha, hora).Section(id)) == FieldNames(id) {
      InitialSection(fecha, hora, id);
      BlankLookup(FieldNames(id), Hb);
    }
  }

  /** ...each of them `null`; a key the group does not declare reads `undefined`. */
  lemma InitialGet(fecha: string, hora: string, id: SectionId, key: Field)
    ensures Initial(fecha, hora).Get(id, key) == if key in FieldNames(id) then Null else Undefined
  {
    InitialSection(fecha, hora, id);
    BlankLookup(FieldNames(id), key);
  }

  lemma InitialSection(fecha: string, hora: string, id: SectionId)
    ensures Initial(fecha, hora).Section(id) == Blank(FieldNames(id))
  {
  }

  /** The lab-day object: date, time and six group objects that are updated in place. */
  class DiaExamen {
    var fecha: string
    var hora: string
    const hemograma: JsObject
    const electrolitos: JsObject
    const funcionHepatica: JsObject
    const coagulacion: JsObject
    const funcionRenal: JsObject
    const otros: JsObject

    /** The six group objects are distinct (no group aliases another). */
    ghost predicate Valid() {
      && hemograma != electrolitos && hemograma != funcionHepatica && hemograma != coagulacion
      && hemograma != funcionRenal && hemograma != otros
      && electrolitos != funcionHepatica && electrolitos != coagulacion
      && electrolitos != funcionRenal && electrolitos != otros
      && funcionHepatica != coagulacion && funcionHepatica != funcionRenal && funcionHepatica != otros
      && coagulacion != funcionRenal && coagulacion != otros
      && funcionRenal != otros
    }

    function Objects(): set<JsObject> {
      {hemograma, electrolitos, funcionHepatica, coagulacion, funcionRenal, otros}
    }

    /** The group object for `id` (`labDia.hemograma`, `labDia.electrolitos`, ...). */
    function Group(id: SectionId): (o: JsObject)
      ensures o in Objects()
    {
      match id
      case Hemograma => hemograma
      case Electrolitos => electrolitos
      case FuncionHepatica => funcionHepatica
      case Coagulacion => coagulacion
      case FuncionRenal => funcionRenal
      case Otros => otros
    }

    function View(): (r: Report)
      reads this, Objects()
      ensures forall id :: r.Section(id) == Group(id).props
    {
      Report(fecha, hora, hemograma.props, electrolitos.props, funcionHepatica.props,
             coagulacion.props, funcionRenal.props, otros.props)
    }

    constructor (fecha: string, hora: string)
      ensures Valid()
      ensures fresh(hemograma) && fresh(electrolitos) && fresh(funcionHepatica)
      ensures fresh(coagulacion) && fresh(funcionRenal) && fresh(otros)
      ensures View() == Initial(fecha, hora)
    {
      this.fecha := fecha;
      this.hora := hora;
      hemograma := new JsObject(Blank(FieldNames(Hemograma)));
      electrolitos := new JsObject(Blank(FieldNames(Electrolitos)));
      funcionHepatica := new JsObject(Blank(FieldNames(FuncionHepatica)));
      coagulacion := new JsObject(Blank(FieldNames(Coagulacion)));
      funcionRenal := new JsObject(Blank(FieldNames(FuncionRenal)));
      otros := new JsObject(Blank(FieldNames(Otros)));
    }

    /** `labDia.<group>.<f> = v`: only the group that declares `f` changes. */
    method Set(f: Field, v: JsValue)
      requires Valid()
      modifies Group(SectionOf(f))
      ensures View() == Write(old(View()), f, v)
    {
      Group(SectionOf(f)).Put(f, v);
    }
  }

  /** `nombresExamenes`: the exam names looked for, in scan order. */
  const Catalog: seq<string> := [
    "HEMOGLOBINA", "HEMATOCRITO", "V.C.M", "C.H.C.M", "RCTO. DE PLAQUETAS", "LEUCOCITOS", "RAN",
    "SEGMENTADO", "LINFOCITOS ",
    "SODIO", "POTASIO", "CLORO", "CALCIO IONICO", "FOSFORO", "MAGNESIO",
    "CREATININA, sangre", "NITROGENO UREICO", "LDH",
    "PROTEINA C REACTIVA", "% ACTIV. DE PROTROMBINA", "INR", "TTPK",
    "BILIRRUBINA TOTAL", "BILIRRUBINA DIRECTA", "PROTEINAS TOTALES", "ALBUMINA", "GGT",
    "FOSFATASA ALCALINA", "GPT", "GOT",
    "HORMONA TIROESTIMULANTE (TSH)", "TIROXINA LIBRE: T4L"
  ]

  /**
   * The cases of the extraction's `switch (examName)`, in the order they are
   * written, with the field each one writes. The blood-gas cases are left out:
   * no catalog name reaches them.
   */
  const Cases: seq<(string, Field)> := [
    ("HEMOGLOBINA", Hb), ("HEMATOCRITO", Hto), ("V.C.M", VCM), ("C.H.C.M", CHCM),
    ("RCTO. DE PLAQUETAS", Plaquetas), ("LEUCOCITOS", Leucocitos), ("RAN", RAN),
    ("SEGMENTADO", Segmentados), ("LINFOCITOS ", Linfocitos),
    ("SODIO", Na), ("POTASIO", K), ("CLORO", Cl), ("CALCIO IONICO", Ca), ("FOSFORO", P), ("MAGNESIO", Mg),
    ("CREATININA, sangre", Crea), ("NITROGENO UREICO", BUN), ("LDH", LDH), ("PROTEINA C REACTIVA", PCR),
    ("TTPK", TTPK), ("% ACTIV. DE PROTROMBINA", TP), ("INR", INR),
    ("BILIRRUBINA TOTAL", BiliT), ("BILIRRUBINA DIRECTA", BiliD), ("PROTEINAS TOTALES", Proteinas),
    ("ALBUMINA", Albumina), ("GGT", GGT), ("FOSFATASA ALCALINA", FA), ("GPT", GPT), ("GOT", GOT),
    ("HORMONA TIROESTIMULANTE (TSH)", TSH), ("TIROXINA LIBRE: T4L", T4L)
  ]

  /** The first case whose label is `name`, as `switch` picks it. */
  function CaseOf(cases: seq<(string, Field)>, name: string): (f: Option<Field>)
    ensures f.Some? ==> (name, f.value) in cases
    ensures f.None? ==> forall c :: c in cases ==> c.0 != name
  {
    if cases == [] then None
    else if cases[0].0 == name then Some(cases[0].1)
    else CaseOf(cases[1..], name)
  }

  /**
   * `switch` enters the first case whose label is the name: a case is
   * entered when no earlier case carries its label.
   */
  lemma {:induction false} CaseOfFirst(cases: seq<(string, Field)>, i: nat)
    requires i < |cases|
    requires forall m :: 0 <= m < i ==> cases[m].0 != cases[i].0
    ensures CaseOf(cases, cases[i].0) == Some(cases[i].1)
  {
    if i > 0 {
      CaseOfFirst(cases[1..], i - 1);
    }
  }

  /**
   * Every exam name looked for has a case. The cases follow the catalog,
   * except that TTPK's case comes before those of "% ACTIV. DE PROTROMBINA"
   * and INR.
   */
  lemma CatalogHasCases()
    ensures forall j :: 0 <= j < |Catalog| ==> Target(Catalog[j]).Some?
  {
    forall j | 0 <= j < |Catalog| ensures Target(Catalog[j]).Some? {
      var m := if j == 19 then 20 else if j == 20 then 21 else if j == 21 then 19 else j;
      assert Cases[m].0 == Catalog[j];
      assert Cases[m] in Cases;
    }
  }

  /** The field the `case` for `name` writes; `None` when no case matches. */
  function Target(name: string): Option<Field> {
    CaseOf(Cases, name)
  }

  /** Where the value token sits relative to the name token. */
  function Offset(name: string): int {
    if name == "SEGMENTADO" then 21
    else if name == "LINFOCITOS " then 20
    else if name == "INR" then -2
    else -3
  }

  /** The layout-drift guard's sentinels. */
  predicate IsSentinel(v: JsValue) {
    v == Str("Valor Referencia") || v == Str("null")
  }

  /** `labDia.<group>.<f> = v`. */
  function Write(r: Report, f: Field, v: JsValue): (r': Report)
    ensures r'.Get(SectionOf(f), f) == v
    ensures forall id, key :: (id, key) != (SectionOf(f), f) ==> r'.Get(id, key) == r.Get(id, key)
    ensures r'.fecha == r.fecha && r'.hora == r.hora
    ensures r.WellShaped() ==> r'.WellShaped()
  {
    var props := r.Section(SectionOf(f));
    assert forall other :: other != f ==> Lookup(Assign(props, f, v), other) == Lookup(props, other) by {
      forall other | other != f ensures Lookup(Assign(props, f, v), other) == Lookup(props, other) {
        AssignElsewhere(props, f, v, other);
      }
    }
    r.WithSection(SectionOf(f), Assign(props, f, v))
  }

  /**
   * `new diaExamen(page0[13].substring(0, 10), page0[13].substring(11, 16))`:
   * the date and time from the header token, or `None` when there is no
   * first page or it has no token 13 (reading it throws a TypeError).
   */
  function Stamp(pages: seq<seq<string>>): (stamp: Option<(string, string)>)
    ensures stamp.None? <==> |pages| == 0 || |pages[0]| <= 13
    ensures stamp.Some? ==> |stamp.value.0| <= 10 && |stamp.value.1| <= 5
    ensures stamp.Some? && |pages[0][13]| >= 16 ==>
              stamp.value == (pages[0][13][..10], pages[0][13][11..16])
  {
    if |pages| == 0 || |pages[0]| <= 13 then None
    else Some((Substring(pages[0][13], 0, 10), Substring(pages[0][13], 11, 16)))
  }

  /** The title each group is printed under. */
  function Title(id: SectionId): string {
    match id
    case Hemograma => "Hemograma"
    case Electrolitos => "Electrolitos"
    case FuncionHepatica => "Función Hepática"
    case Coagulacion => "Coagulación"
    case FuncionRenal => "Función Renal"
    case Otros => "Otros"
  }

  /** `Object.entries(data).filter(([key, value]) => value !== null)`. */
  function Listed(props: seq<Prop>): seq<Prop> {
    if props == [] then []
    else (if StrictlyNonNull(props[0].value) then [props[0]] else []) + Listed(props[1..])
  }

  /** The listed entries are exactly the properties that are not `null`. */
  lemma {:induction false} ListedMembers(props: seq<Prop>)
    ensures |Listed(props)| <= |props|
    ensures forall p :: p in Listed(props) <==> p in props && StrictlyNonNull(p.value)
  {
    if props != [] {
      ListedMembers(props[1..]);
      assert props == [props[0]] + props[1..];
    }
  }

  /** Filtering keeps the order of the entries: it distributes over concatenation. */
  lemma {:induction false} ListedAppend(xs: seq<Prop>, ys: seq<Prop>)
    ensures Listed(xs + ys) == Listed(xs) + Listed(ys)
  {
    if xs == [] {
      assert xs + ys == ys;
    } else {
      var head := if StrictlyNonNull(xs[0].value) then [xs[0]] else [];
      assert (xs + ys)[0] == xs[0];
      assert (xs + ys)[1..] == xs[1..] + ys;
      ListedAppend(xs[1..], ys);
      calc {
        Listed(xs + ys);
        head + Listed(xs[1..] + ys);
        head + (Listed(xs[1..]) + Listed(ys));
        (head + Listed(xs[1..])) + Listed(ys);
      }
    }
  }

  /** A section whose values are all `null` still prints its title, with no items. */
  lemma SectionLineBlank(title: string, props: seq<Prop>)
    requires forall p :: p in props ==> p.value.Null?
    ensures SectionLine(title, props) == "- " + title + ": "
  {
    ListedMembers(props);
  }

  /** A group as the record is created, whatever its keys, prints with no items. */
  lemma BlankLine(title: string, keys: seq<Field>)
    ensures SectionLine(title, Blank(keys)) == "- " + title + ": "
  {
    SectionLineBlank(title, Blank(keys));
  }

  /**
   * An entry added at the end of a group adds its `key value` item at the
   * end of the line (after ", " unless it is the first item), and nothing
   * when it is `null`.
   */
  lemma SectionLineSnoc(title: string, props: seq<Prop>, p: Prop)
    ensures SectionLine(title, props + [p]) ==
              if !StrictlyNonNull(p.value) then SectionLine(title, props)
              else if Listed(props) == [] then SectionLine(title, props) + ItemText(p)
              else SectionLine(title, props) + ", " + ItemText(p)
  {
    ListedSnoc(props, p);
    if StrictlyNonNull(p.value) {
      ItemsSnoc(title, Listed(props), p);
    }
  }

  /** The filter keeps an entry added at the end iff it is not `null`. */
  lemma ListedSnoc(props: seq<Prop>, p: Prop)
    ensures Listed(props + [p]) == if StrictlyNonNull(p.value) then Listed(props) + [p] else Listed(props)
  {
    ListedAppend(props, [p]);
    assert [p][1..] == [];
    if StrictlyNonNull(p.value) {
      assert Listed([p]) == [p];
    } else {
      assert Listed([p]) == [];
      assert Listed(props) + [] == Listed(props);
    }
  }

  /** The items of listed entries with one more entry at the end. */
  lemma ItemsSnoc(title: string, listed: seq<Prop>, p: Prop)
    ensures "- " + title + ": " + Join(ItemTexts(listed + [p]), ", ") ==
              if listed == [] then "- " + title + ": " + Join(ItemTexts(listed), ", ") + ItemText(p)
              else "- " + title + ": " + Join(ItemTexts(listed), ", ") + ", " + ItemText(p)
  {
    var items := ItemTexts(listed);
    assert ItemTexts(listed + [p]) == items + [ItemText(p)];
    if listed == [] {
      assert items + [ItemText(p)] == [ItemText(p)];
    } else {
      JoinSnoc(items, ItemText(p), ", ");
    }
  }

  /** `${key} ${value}`. */
  function ItemText(p: Prop): string {
    KeyName(p.key) + " " + Text(p.value)
  }

  function ItemTexts(props: seq<Prop>): seq<string> {
    seq(|props|, i requires 0 <= i < |props| => ItemText(props[i]))
  }

  /** `- ${title}: ${items}` where the items are the listed entries joined by ", ". */
  function SectionLine(title: string, props: seq<Prop>): string {
    "- " + title + ": " + Join(ItemTexts(Listed(props)), ", ")
  }
}
