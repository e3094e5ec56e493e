/**
 * The slice of JavaScript semantics that the lab-report extraction relies on:
 * the three kinds of value a record field can hold, array reads that may fall
 * off either end of a page, the leading-whitespace strip done by
 * `replace` with the pattern `\s*` and no `g` flag, `substring`, `replace("*", "")`, template-literal
 * interpolation and `Array.prototype.join`.
 */
module Js {

  datatype Option<T> = None | Some(value: T)

  /** A field value: `null`, `undefined`, or a string (every token is a string). */
  datatype JsValue = Null | Undefined | Str(s: string)

  /** `v != null` (loose): false for both `null` and `undefined`. */
  predicate LooselyNonNull(v: JsValue) {
    v.Str?
  }

  /** `v !== null` (strict): `undefined` passes. */
  predicate StrictlyNonNull(v: JsValue) {
    !v.Null?
  }

  /** Truthiness of a field value: only a non-empty string is truthy. */
  predicate Truthy(v: JsValue) {
    v.Str? && v.s != ""
  }

  /** How `${v}` renders a field value inside a template literal. */
  function Text(v: JsValue): (t: string)
    ensures v.Str? ==> t == v.s
    ensures v.Null? ==> t == "null"
    ensures v.Undefined? ==> t == "undefined"
  {
    match v
    case Null => "null"
    case Undefined => "undefined"
    case Str(s) => s
  }

  /** `page[i]` for a possibly negative or too large index. */
  function At(page: seq<string>, i: int): (v: JsValue)
    ensures v.Undefined? <==> !(0 <= i < |page|)
    ensures 0 <= i < |page| ==> v == Str(page[i])
  {
    if 0 <= i < |page| then Str(page[i]) else Undefined
  }

  /**
   * The characters matched by `\s` in a JavaScript regular expression:
   * WhiteSpace (tab, vertical tab, form feed, space, no-break space, the byte
   * order mark and the Unicode space separators) and LineTerminator.
   */
  predicate IsSpace(c: char) {
    || c == '\t' || c == '\n' || c == '\U{B}' || c == '\U{C}' || c == '\r' || c == ' '
    || c == '\U{A0}' || c == '\U{1680}' || ('\U{2000}' <= c <= '\U{200A}')
    || c == '\U{2028}' || c == '\U{2029}' || c == '\U{202F}' || c == '\U{205F}'
    || c == '\U{3000}' || c == '\U{FEFF}'
  }

  predicate AllSpace(s: string) {
    forall i :: 0 <= i < |s| ==> IsSpace(s[i])
  }

  /**
   * `s.replace` with the pattern `\s*` and no `g` flag: without the `g` flag the pattern matches once, at
   * index 0, so exactly the leading run of whitespace is removed.
   */
  function StripLeading(s: string): (r: string)
    ensures |r| <= |s| && r == s[|s| - |r|..]
  {
    if s != [] && IsSpace(s[0]) then StripLeading(s[1..]) else s
  }

  /** What `StripLeading` removes is whitespace... */
  lemma {:induction false} StripLeadingRemovesSpaces(s: string)
    ensures AllSpace(s[..|s| - |StripLeading(s)|])
  {
    if s != [] && IsSpace(s[0]) {
      StripLeadingRemovesSpaces(s[1..]);
      var r := StripLeading(s);
      forall i | 0 <= i < |s| - |r| ensures IsSpace(s[i]) {
        if i > 0 {
          assert s[i] == s[1..][..|s| - 1 - |r|][i - 1];
        }
      }
    }
  }

  /** ...and what it leaves does not start with whitespace. */
  lemma {:induction false} StripLeadingStops(s: string)
    ensures StripLeading(s) == [] || !IsSpace(StripLeading(s)[0])
  {
    if s != [] && IsSpace(s[0]) {
      StripLeadingStops(s[1..]);
    }
  }

  /**
   * A token strips to a name that does not itself start with whitespace iff
   * the token is that name behind a (possibly empty) run of whitespace;
   * anything after the name, trailing spaces included, makes it differ.
   */
  lemma {:induction false} StripLeadingIsName(t: string, name: string)
    requires name != [] && !IsSpace(name[0])
    ensures StripLeading(t) == name <==>
              |name| <= |t| && t[|t| - |name|..] == name && AllSpace(t[..|t| - |name|])
  {
    StripLeadingRemovesSpaces(t);
    StripLeadingStops(t);
    if |name| <= |t| && t[|t| - |name|..] == name && AllSpace(t[..|t| - |name|]) {
      StripSpacesBefore(t, name);
    }
  }

  /** Stripping a run of whitespace in front of such a name leaves the name. */
  lemma {:induction false} StripSpacesBefore(t: string, name: string)
    requires name != [] && !IsSpace(name[0])
    requires |name| <= |t| && t[|t| - |name|..] == name && AllSpace(t[..|t| - |name|])
    ensures StripLeading(t) == name
  {
    if |t| == |name| {
      assert t == t[|t| - |name|..];
    } else {
      assert IsSpace(t[..|t| - |name|][0]);
      assert t[1..][|t| - 1 - |name|..] == t[|t| - |name|..];
      assert t[1..][..|t| - 1 - |name|] == t[..|t| - |name|][1..];
      StripSpacesBefore(t[1..], name);
    }
  }

  /** `s.substring(start, end)` for non-negative arguments: swapped if reversed, clamped to the length. */
  function Substring(s: string, start: nat, end: nat): (r: string)
    ensures start <= end <= |s| ==> r == s[start..end]
    ensures start <= end && |s| <= end ==> r == s[if start <= |s| then start else |s|..]
    ensures end < start ==> r == Substring(s, end, start)
  {
    var lo := if start <= end then start else end;
    var hi := if start <= end then end else start;
    var lo' := if lo <= |s| then lo else |s|;
    var hi' := if hi <= |s| then hi else |s|;
    s[lo'..hi']
  }

  /** `s.replace("*", "")`: drops the first asterisk, if there is one. */
  function RemoveFirstStar(s: string): (r: string)
    ensures '*' !in s ==> r == s
    ensures '*' in s ==> |r| == |s| - 1
    ensures forall i :: 0 <= i < |r| && (forall m :: 0 <= m <= i ==> s[m] != '*') ==> r[i] == s[i]
  {
    if s == [] then s
    else if s[0] == '*' then s[1..]
    else [s[0]] + RemoveFirstStar(s[1..])
  }

  /** With the first asterisk at `p`, the result is the string with that one character cut out. */
  lemma {:induction false} RemoveFirstStarAt(s: string, p: nat)
    requires p < |s| && s[p] == '*'
    requires forall m :: 0 <= m < p ==> s[m] != '*'
    ensures RemoveFirstStar(s) == s[..p] + s[p + 1..]
  {
    if p > 0 {
      var t := s[1..];
      forall m | 0 <= m < p - 1 ensures t[m] != '*' {
        assert t[m] == s[m + 1];
      }
      RemoveFirstStarAt(t, p - 1);
      CutAfterHead(s, p);
    }
  }

  /** Cutting position `p - 1` out of the tail and putting the head back cuts position `p` out of the whole. */
  lemma CutAfterHead<T>(s: seq<T>, p: nat)
    requires 0 < p < |s|
    ensures [s[0]] + (s[1..][..p - 1] + s[1..][p..]) == s[..p] + s[p + 1..]
  {
    assert s[..p] == [s[0]] + s[1..][..p - 1];
    assert s[p + 1..] == s[1..][p..];
  }

  /** `parts.join(sep)`. */
  function Join(parts: seq<string>, sep: string): (r: string)
    ensures |parts| == 1 ==> r == parts[0]
    ensures parts == [] ==> r == ""
  {
    if parts == [] then ""
    else if |parts| == 1 then parts[0]
    else parts[0] + sep + Join(parts[1..], sep)
  }

  /** Joining one more part puts one more separator in front of it. */
  lemma {:induction false} JoinSnoc(parts: seq<string>, x: string, sep: string)
    requires parts != []
    ensures Join(parts + [x], sep) == Join(parts, sep) + sep + x
  {
    if |parts| == 1 {
      assert (parts + [x])[1..] == [x];
    } else {
      assert (parts + [x])[1..] == parts[1..] + [x];
      JoinSnoc(parts[1..], x, sep);
    }
  }
}
