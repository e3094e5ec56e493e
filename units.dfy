/**
 * The unit suffixes both drafts append to a group's values before printing
 * them, and the absolute neutrophil and lymphocyte counts (RAN, RAL) they
 * derive from the differential. index.js tests each value with `!= null`,
 * index01.js with truthiness; the order of the steps is the same.
 *
 * The counts are `(Leucocitos * pct / 100).toFixed(3)`, floating-point
 * arithmetic on strings coerced to numbers; here that is the parameter
 * `derive`, applied to the white-cell value and the percentage with its first
 * asterisk removed.
 */
module Units {
  import opened Js
  import opened Lab

  /** How a draft decides that a value is there to be suffixed. */
  datatype Test = IsNonNull | IsTruthy

  predicate Present(t: Test, v: JsValue) {
    match t
    case IsNonNull => LooselyNonNull(v)
    case IsTruthy => Truthy(v)
  }

  /** `v + suffix` when the test passes, `v` otherwise. */
  function Suffixed(t: Test, v: JsValue, suffix: string): JsValue {
    if Present(t, v) then Str(v.s + suffix) else v
  }

  /** `if (test(data.key)) data.key = data.key + suffix`. */
  function AppendTo(props: seq<Prop>, key: Field, suffix: string, t: Test): seq<Prop> {
    var v := Lookup(props, key);
    if Present(t, v) then Assign(props, key, Str(v.s + suffix)) else props
  }

  /** White cells get a trailing "0", platelets ".000", the haematocrit "%". */
  function BloodCounts(props: seq<Prop>, t: Test): seq<Prop> {
    AppendTo(AppendTo(AppendTo(props, Leucocitos, "0", t), Plaquetas, ".000", t), Hto, "%", t)
  }

  /** A group after the steps that ran, and whether the last one threw a TypeError. */
  datatype Outcome = Outcome(props: seq<Prop>, threw: bool)

  /**
   * The differential: when Segmentados is present, RAN is derived from it and
   * it gets "%"; then Linfocitos is read with `.replace`, which throws unless
   * it is a string, and otherwise RAL is derived from it and it gets "%".
   */
  function Differential(props: seq<Prop>, t: Test, derive: (JsValue, string) -> string): Outcome {
    if !Present(t, Lookup(props, Segmentados)) then Outcome(props, false)
    else
      var neutrophils := Counted(props, Segmentados, RAN, derive);
      if !Lookup(neutrophils, Linfocitos).Str? then Outcome(neutrophils, true)
      else Outcome(Counted(neutrophils, Linfocitos, RAL, derive), false)
  }

  /**
   * `data.abs = derive(data.Leucocitos, data.pct.replace("*", ""))` followed by
   * `data.pct = data.pct + "%"`, for a percentage that is a string.
   */
  function Counted(props: seq<Prop>, pct: Field, abs: Field, derive: (JsValue, string) -> string): seq<Prop>
    requires Lookup(props, pct).Str? && pct != abs
  {
    var v := Lookup(props, pct).s;
    Assign(Assign(props, abs, Str(derive(Lookup(props, Leucocitos), RemoveFirstStar(v)))), pct, Str(v + "%"))
  }

  /** The prothrombin activity gets "%", the TTPK " s". */
  function CoagulationUnits(props: seq<Prop>, t: Test): seq<Prop> {
    AppendTo(AppendTo(props, TP, "%", t), TTPK, " s", t)
  }

  /**
   * Appending a unit changes the one value, when the test passes, and keeps
   * every key and every other value.
   */
  lemma AppendToLookup(props: seq<Prop>, key: Field, suffix: string, t: Test, other: Field)
    ensures Lookup(AppendTo(props, key, suffix, t), other) ==
              if other == key then Suffixed(t, Lookup(props, key), suffix) else Lookup(props, other)
    ensures Keys(AppendTo(props, key, suffix, t)) == Keys(props)
  {
    var v := Lookup(props, key);
    if Present(t, v) && other != key {
      AssignElsewhere(props, key, Str(v.s + suffix), other);
    }
  }

  /** The blood-count units touch exactly Leucocitos, Plaquetas and Hto. */
  lemma BloodCountsLookup(props: seq<Prop>, t: Test, other: Field)
    ensures Lookup(BloodCounts(props, t), other) ==
              if other == Leucocitos then Suffixed(t, Lookup(props, Leucocitos), "0")
              else if other == Plaquetas then Suffixed(t, Lookup(props, Plaquetas), ".000")
              else if other == Hto then Suffixed(t, Lookup(props, Hto), "%")
              else Lookup(props, other)
    ensures Keys(BloodCounts(props, t)) == Keys(props)
  {
    var a := AppendTo(props, Leucocitos, "0", t);
    var b := AppendTo(a, Plaquetas, ".000", t);
    AppendToLookup(props, Leucocitos, "0", t, other);
    AppendToLookup(a, Plaquetas, ".000", t, other);
    AppendToLookup(b, Hto, "%", t, other);
    if other == Plaquetas || other == Hto {
      AppendToLookup(props, Leucocitos, "0", t, other);
    }
    if other == Hto {
      AppendToLookup(a, Plaquetas, ".000", t, Hto);
    }
  }

  /** Deriving a count writes the absolute count and suffixes the percentage, and nothing else. */
  lemma CountedLookup(props: seq<Prop>, pct: Field, abs: Field, derive: (JsValue, string) -> string, other: Field)
    requires Lookup(props, pct).Str? && pct != abs && pct != Leucocitos
    ensures Lookup(Counted(props, pct, abs, derive), other) ==
              if other == abs then Str(derive(Lookup(props, Leucocitos), RemoveFirstStar(Lookup(props, pct).s)))
              else if other == pct then Str(Lookup(props, pct).s + "%")
              else Lookup(props, other)
    ensures abs in Keys(props) ==> Keys(Counted(props, pct, abs, derive)) == Keys(props)
  {
    var v := Lookup(props, pct).s;
    var withAbs := Assign(props, abs, Str(derive(Lookup(props, Leucocitos), RemoveFirstStar(v))));
    if other == abs {
      AssignElsewhere(withAbs, pct, Str(v + "%"), abs);
    } else if other != pct {
      AssignElsewhere(props, abs, Str(derive(Lookup(props, Leucocitos), RemoveFirstStar(v))), other);
      AssignElsewhere(withAbs, pct, Str(v + "%"), other);
    }
  }

  /**
   * The differential throws exactly when Segmentados is present and
   * Linfocitos is not a string; it writes RAN and Segmentados when
   * Segmentados is present, RAL and Linfocitos when Linfocitos is a string as
   * well, and nothing else.
   */
  lemma DifferentialLookup(props: seq<Prop>, t: Test, derive: (JsValue, string) -> string, other: Field)
    ensures var seg, lin, leu := Lookup(props, Segmentados), Lookup(props, Linfocitos), Lookup(props, Leucocitos);
            var o := Differential(props, t, derive);
            && (o.threw <==> Present(t, seg) && !lin.Str?)
            && Lookup(o.props, other) ==
                 if !Present(t, seg) then Lookup(props, other)
                 else if other == Segmentados then Str(seg.s + "%")
                 else if other == RAN then Str(derive(leu, RemoveFirstStar(seg.s)))
                 else if other == Linfocitos && lin.Str? then Str(lin.s + "%")
                 else if other == RAL && lin.Str? then Str(derive(leu, RemoveFirstStar(lin.s)))
                 else Lookup(props, other)
    ensures RAN in Keys(props) && RAL in Keys(props) ==> Keys(Differential(props, t, derive).props) == Keys(props)
  {
    var seg := Lookup(props, Segmentados);
    if Present(t, seg) {
      var neutrophils := Counted(props, Segmentados, RAN, derive);
      CountedLookup(props, Segmentados, RAN, derive, other);
      CountedLookup(props, Segmentados, RAN, derive, Linfocitos);
      CountedLookup(props, Segmentados, RAN, derive, Leucocitos);
      if Lookup(neutrophils, Linfocitos).Str? {
        CountedLookup(neutrophils, Linfocitos, RAL, derive, other);
        if other == Segmentados || other == RAN {
          CountedLookup(props, Segmentados, RAN, derive, other);
        }
      }
    }
  }

  /**
   * After the blood-count units and the differential, when nothing threw:
   * the suffixed counts, RAN and RAL derived from the white-cell value as
   * already suffixed with "0", the suffixed percentages, and every other
   * value as before.
   */
  lemma CountsLookup(props: seq<Prop>, t: Test, derive: (JsValue, string) -> string, other: Field)
    requires !Differential(BloodCounts(props, t), t, derive).threw
    ensures var seg, lin := Lookup(props, Segmentados), Lookup(props, Linfocitos);
            var leu := Suffixed(t, Lookup(props, Leucocitos), "0");
            Lookup(Differential(BloodCounts(props, t), t, derive).props, other) ==
              if other == Leucocitos then leu
              else if other == Plaquetas then Suffixed(t, Lookup(props, Plaquetas), ".000")
              else if other == Hto then Suffixed(t, Lookup(props, Hto), "%")
              else if other == Segmentados then Suffixed(t, seg, "%")
              else if other == RAN && Present(t, seg) then Str(derive(leu, RemoveFirstStar(seg.s)))
              else if other == Linfocitos && Present(t, seg) && lin.Str? then Str(lin.s + "%")
              else if other == RAL && Present(t, seg) && lin.Str? then Str(derive(leu, RemoveFirstStar(lin.s)))
              else Lookup(props, other)
  {
    BloodCountsLookup(props, t, Segmentados);
    BloodCountsLookup(props, t, Linfocitos);
    BloodCountsLookup(props, t, Leucocitos);
    BloodCountsLookup(props, t, other);
    CountsFrom(props, BloodCounts(props, t), t, derive, other);
  }

  /** The differential step of `CountsLookup`, over any group whose blood counts already have their units. */
  lemma CountsFrom(props: seq<Prop>, counts: seq<Prop>, t: Test, derive: (JsValue, string) -> string, other: Field)
    requires Lookup(counts, Segmentados) == Lookup(props, Segmentados)
    requires Lookup(counts, Linfocitos) == Lookup(props, Linfocitos)
    requires Lookup(counts, Leucocitos) == Suffixed(t, Lookup(props, Leucocitos), "0")
    requires Lookup(counts, other) ==
               if other == Leucocitos then Suffixed(t, Lookup(props, Leucocitos), "0")
               else if other == Plaquetas then Suffixed(t, Lookup(props, Plaquetas), ".000")
               else if other == Hto then Suffixed(t, Lookup(props, Hto), "%")
               else Lookup(props, other)
    requires !Differential(counts, t, derive).threw
    ensures var seg, lin := Lookup(props, Segmentados), Lookup(props, Linfocitos);
            var leu := Suffixed(t, Lookup(props, Leucocitos), "0");
            Lookup(Differential(counts, t, derive).props, other) ==
              if other == Leucocitos then leu
              else if other == Plaquetas then Suffixed(t, Lookup(props, Plaquetas), ".000")
              else if other == Hto then Suffixed(t, Lookup(props, Hto), "%")
              else if other == Segmentados then Suffixed(t, seg, "%")
              else if other == RAN && Present(t, seg) then Str(derive(leu, RemoveFirstStar(seg.s)))
              else if other == Linfocitos && Present(t, seg) && lin.Str? then Str(lin.s + "%")
              else if other == RAL && Present(t, seg) && lin.Str? then Str(derive(leu, RemoveFirstStar(lin.s)))
              else Lookup(props, other)
  {
    DifferentialLookup(counts, t, derive, other);
  }

  /** The coagulation units touch exactly TP and TTPK. */
  lemma CoagulationUnitsLookup(props: seq<Prop>, t: Test, other: Field)
    ensures Lookup(CoagulationUnits(props, t), other) ==
              if other == TP then Suffixed(t, Lookup(props, TP), "%")
              else if other == TTPK then Suffixed(t, Lookup(props, TTPK), " s")
              else Lookup(props, other)
    ensures Keys(CoagulationUnits(props, t)) == Keys(props)
  {
    var a := AppendTo(props, TP, "%", t);
    AppendToLookup(props, TP, "%", t, other);
    AppendToLookup(a, TTPK, " s", t, other);
    if other == TTPK {
      AppendToLookup(props, TP, "%", t, TTPK);
    }
  }
}
