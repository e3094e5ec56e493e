/**
 * What the token scan of both drafts computes: for every page, every token
 * index and every catalog name, in that order, a name that the token matches
 * (after its leading whitespace is stripped) writes the value token at the
 * name's offset into the name's field, unless the guard on the token three
 * places back rejects it. The two drafts differ only in that guard.
 */
module Scan {
  import opened Js
  import opened Lab

  datatype Draft = IndexJs | Index01Js

  /** A token matches a catalog name when it equals it once leading whitespace is removed. */
  predicate Matches(token: string, name: string) {
    StripLeading(token) == name
  }

  /**
   * The guard on `page[k-3]`. index.js skips a sentinel there and then tests
   * `k - 3 < page.length`; index01.js also skips `k - 3 < 0`.
   */
  predicate Guard(draft: Draft, page: seq<string>, k: int) {
    match draft
    case IndexJs => !IsSentinel(At(page, k - 3)) && k - 3 < |page|
    case Index01Js => !(k - 3 < 0 || IsSentinel(At(page, k - 3)))
  }

  /**
   * index.js's length test always holds for a token index, so its
   * "no value found" branch never runs: the guard is the sentinel test alone.
   */
  lemma GuardIndexJs(page: seq<string>, k: int)
    requires 0 <= k < |page|
    ensures k - 3 < |page|
    ensures Guard(IndexJs, page, k) <==> !IsSentinel(At(page, k - 3))
  {
  }

  /** index01.js's guard is index.js's restricted to tokens with three before them. */
  lemma GuardIndex01Js(page: seq<string>, k: int)
    requires 0 <= k < |page|
    ensures Guard(Index01Js, page, k) <==> k >= 3 && Guard(IndexJs, page, k)
  {
  }

  /**
   * The field that trying `name` at token `k` writes: its switch case, when
   * the stripped token is that name and the guard lets it through.
   */
  function Effect(draft: Draft, page: seq<string>, k: nat, name: string): Option<Field>
    requires k < |page|
  {
    if Matches(page[k], name) && Guard(draft, page, k) then Target(name) else None
  }

  /** A catalog name writes a field exactly when it matches the token and the guard lets it through. */
  lemma MatchWrites(draft: Draft, page: seq<string>, k: nat, j: nat)
    requires k < |page| && j < |Catalog|
    ensures Effect(draft, page, k, Catalog[j]).Some? <==> Matches(page[k], Catalog[j]) && Guard(draft, page, k)
  {
    CatalogHasCases();
  }

  /** The value a match of `name` at token `k` stores: the token at the name's offset, if any. */
  function ValueFor(page: seq<string>, k: nat, name: string): JsValue {
    At(page, k + Offset(name))
  }

  /** The `switch (examName)`: a name with a case stores its value token in its field. */
  function Store(r: Report, page: seq<string>, k: nat, name: string): Report {
    match Target(name)
    case Some(f) => Write(r, f, ValueFor(page, k, name))
    case None => r
  }

  /** One iteration of the innermost loop. */
  function Step(draft: Draft, r: Report, page: seq<string>, k: nat, name: string): Report
    requires k < |page|
  {
    if Matches(page[k], name) && Guard(draft, page, k) then Store(r, page, k, name) else r
  }

  /** One step changes only the field it writes, and only when it writes one. */
  lemma StepGet(draft: Draft, r: Report, page: seq<string>, k: nat, name: string, id: SectionId, key: Field)
    requires k < |page|
    ensures Step(draft, r, page, k, name).Get(id, key) ==
              if id == SectionOf(key) && Effect(draft, page, k, name) == Some(key) then ValueFor(page, k, name)
              else r.Get(id, key)
  {
  }

  /** A point of the scan: page `i`, token `k`, catalog name `j`. */
  datatype Pos = Pos(i: nat, k: nat, j: nat)

  predicate ValidPos(pages: seq<seq<string>>, p: Pos) {
    p.i < |pages| && p.k < |pages[p.i]| && p.j < |Catalog|
  }

  predicate AllValid(pages: seq<seq<string>>, ps: seq<Pos>) {
    forall n :: 0 <= n < |ps| ==> ValidPos(pages, ps[n])
  }

  /** Lexicographic order on positions: page, then token, then name. */
  predicate Before(p: Pos, q: Pos) {
    p.i < q.i || (p.i == q.i && (p.k < q.k || (p.k == q.k && p.j < q.j)))
  }

  predicate Sorted(ps: seq<Pos>) {
    forall a, b :: 0 <= a < b < |ps| ==> Before(ps[a], ps[b])
  }

  /** The names tried at token `k` of page `i` by the first `n` iterations of the name loop. */
  function NamePositions(i: nat, k: nat, n: nat): (ps: seq<Pos>)
    ensures |ps| == n
    ensures forall m :: 0 <= m < n ==> ps[m] == Pos(i, k, m)
  {
    if n == 0 then [] else NamePositions(i, k, n - 1) + [Pos(i, k, n - 1)]
  }

  /** The positions visited on page `i` by the first `n` iterations of the token loop. */
  function TokenPositions(pages: seq<seq<string>>, i: nat, n: nat): (ps: seq<Pos>)
    requires i < |pages| && n <= |pages[i]|
    ensures forall p :: p in ps <==> p.i == i && p.k < n && p.j < |Catalog|
    ensures Sorted(ps)
    ensures AllValid(pages, ps)
  {
    if n == 0 then []
    else
      var front, last := TokenPositions(pages, i, n - 1), NamePositions(i, n - 1, |Catalog|);
      assert forall p: Pos :: p.i == i && p.k == n - 1 && p.j < |Catalog| ==> p in last by {
        forall p: Pos | p.i == i && p.k == n - 1 && p.j < |Catalog| ensures p in last {
          assert last[p.j] == p;
        }
      }
      SortedAppend(front, last);
      front + last
  }

  /** The positions visited by the first `n` iterations of the page loop. */
  function PagePositions(pages: seq<seq<string>>, n: nat): (ps: seq<Pos>)
    requires n <= |pages|
    ensures forall p :: p in ps <==> p.i < n && ValidPos(pages, p)
    ensures Sorted(ps)
    ensures AllValid(pages, ps)
  {
    if n == 0 then []
    else
      var front, last := PagePositions(pages, n - 1), TokenPositions(pages, n - 1, |pages[n - 1]|);
      SortedAppend(front, last);
      front + last
  }

  /** Every position of the scan, in the order the three nested loops visit them. */
  function AllPositions(pages: seq<seq<string>>): (ps: seq<Pos>)
    ensures AllValid(pages, ps)
  {
    PagePositions(pages, |pages|)
  }

  lemma {:induction false} SortedAppend(front: seq<Pos>, last: seq<Pos>)
    requires Sorted(front) && Sorted(last)
    requires forall p, q :: p in front && q in last ==> Before(p, q)
    ensures Sorted(front + last)
  {
    var all := front + last;
    forall a, b | 0 <= a < b < |all| ensures Before(all[a], all[b]) {
      if b < |front| {
        assert all[a] == front[a] && all[b] == front[b];
      } else if a < |front| {
        assert all[a] == front[a] && all[b] == last[b - |front|];
      } else {
        assert all[a] == last[a - |front|] && all[b] == last[b - |front|];
      }
    }
  }

  /**
   * The scan visits each (page, token, name) position exactly once, in
   * lexicographic order: pages, then tokens, then names.
   */
  lemma ScanOrder(pages: seq<seq<string>>)
    ensures forall p :: p in AllPositions(pages) <==> ValidPos(pages, p)
    ensures Sorted(AllPositions(pages))
    ensures forall a, b :: 0 <= a < b < |AllPositions(pages)| ==> AllPositions(pages)[a] != AllPositions(pages)[b]
  {
    var ps := AllPositions(pages);
    forall a, b | 0 <= a < b < |ps| ensures ps[a] != ps[b] {
      assert Before(ps[a], ps[b]);
    }
  }

  /** The result of running the loop body at positions `ps`, in order. */
  function Run(draft: Draft, r: Report, pages: seq<seq<string>>, ps: seq<Pos>): (r': Report)
    requires AllValid(pages, ps)
    ensures r'.fecha == r.fecha && r'.hora == r.hora
    ensures r.WellShaped() ==> r'.WellShaped()
  {
    if ps == [] then r
    else
      var p := ps[|ps| - 1];
      Step(draft, Run(draft, r, pages, ps[..|ps| - 1]), pages[p.i], p.k, Catalog[p.j])
  }

  /** Running one more position is one more step. */
  lemma RunSnoc(draft: Draft, r: Report, pages: seq<seq<string>>, ps: seq<Pos>, p: Pos)
    requires AllValid(pages, ps) && ValidPos(pages, p)
    ensures AllValid(pages, ps + [p])
    ensures Run(draft, r, pages, ps + [p]) == Step(draft, Run(draft, r, pages, ps), pages[p.i], p.k, Catalog[p.j])
  {
    assert (ps + [p])[..|ps|] == ps;
  }

  /** The name loop's next iteration is one more step of the scan. */
  lemma RunNextName(draft: Draft, r: Report, pages: seq<seq<string>>, done: seq<Pos>, i: nat, k: nat, j: nat)
    requires i < |pages| && k < |pages[i]| && j < |Catalog|
    requires AllValid(pages, done + NamePositions(i, k, j))
    ensures AllValid(pages, done + NamePositions(i, k, j + 1))
    ensures Run(draft, r, pages, done + NamePositions(i, k, j + 1))
         == Step(draft, Run(draft, r, pages, done + NamePositions(i, k, j)), pages[i], k, Catalog[j])
  {
    NameSnoc(done, i, k, j);
    RunSnoc(draft, r, pages, done + NamePositions(i, k, j), Pos(i, k, j));
  }

  lemma NameSnoc(done: seq<Pos>, i: nat, k: nat, j: nat)
    ensures done + NamePositions(i, k, j + 1) == done + NamePositions(i, k, j) + [Pos(i, k, j)]
  {
    assert NamePositions(i, k, j + 1) == NamePositions(i, k, j) + [Pos(i, k, j)];
  }

  /** The token loop's next iteration visits every name at the next token. */
  lemma NextToken(pages: seq<seq<string>>, i: nat, k: nat)
    requires i < |pages| && k < |pages[i]|
    ensures PagePositions(pages, i) + TokenPositions(pages, i, k + 1)
         == PagePositions(pages, i) + TokenPositions(pages, i, k) + NamePositions(i, k, |Catalog|)
  {
    assert TokenPositions(pages, i, k + 1) == TokenPositions(pages, i, k) + NamePositions(i, k, |Catalog|);
  }

  /** The page loop's next iteration visits every token of the next page. */
  lemma NextPage(pages: seq<seq<string>>, i: nat)
    requires i < |pages|
    ensures PagePositions(pages, i) + TokenPositions(pages, i, 0) == PagePositions(pages, i)
    ensures PagePositions(pages, i + 1) == PagePositions(pages, i) + TokenPositions(pages, i, |pages[i]|)
  {
  }

  /** The whole scan over a document's pages. */
  function ScanAll(draft: Draft, r: Report, pages: seq<seq<string>>): Report {
    Run(draft, r, pages, AllPositions(pages))
  }

  /** What the loop body writes at each of the positions `ps`. */
  function Effects(draft: Draft, pages: seq<seq<string>>, ps: seq<Pos>): (es: seq<Option<Field>>)
    requires AllValid(pages, ps)
    ensures |es| == |ps|
    ensures forall m :: 0 <= m < |ps| ==> es[m] == Effect(draft, pages[ps[m].i], ps[m].k, Catalog[ps[m].j])
  {
    if ps == [] then []
    else
      var p := ps[|ps| - 1];
      Effects(draft, pages, ps[..|ps| - 1]) + [Effect(draft, pages[p.i], p.k, Catalog[p.j])]
  }

  /** The value the loop body at `p` stores. */
  function ValueAt(pages: seq<seq<string>>, p: Pos): JsValue
    requires ValidPos(pages, p)
  {
    ValueFor(pages[p.i], p.k, Catalog[p.j])
  }

  /** The index of the last effect that writes `f`, if any. */
  function LastWriter(es: seq<Option<Field>>, f: Field): (n: Option<nat>)
    ensures n.Some? ==> n.value < |es| && es[n.value] == Some(f)
    ensures n.Some? ==> forall m :: n.value < m < |es| ==> es[m] != Some(f)
    ensures n.None? ==> forall m :: 0 <= m < |es| ==> es[m] != Some(f)
  {
    if es == [] then None
    else if es[|es| - 1] == Some(f) then Some(|es| - 1)
    else LastWriter(es[..|es| - 1], f)
  }

  /**
   * Last write wins and nothing else changes: after the loop body has run at
   * `ps`, a field holds the value stored by the last position that writes it,
   * and a field no position writes keeps its value.
   */
  lemma {:induction false} LastWriteWins(draft: Draft, r: Report, pages: seq<seq<string>>, ps: seq<Pos>, id: SectionId, key: Field)
    requires AllValid(pages, ps)
    ensures var w := LastWriter(Effects(draft, pages, ps), key);
            Run(draft, r, pages, ps).Get(id, key) ==
              if id == SectionOf(key) && w.Some? then ValueAt(pages, ps[w.value]) else r.Get(id, key)
  {
    if ps != [] {
      var front := ps[..|ps| - 1];
      var p := ps[|ps| - 1];
      var before := Effects(draft, pages, front);
      var e := Effect(draft, pages[p.i], p.k, Catalog[p.j]);
      EffectsSnoc(draft, pages, ps);
      LastWriterSnoc(before, e, key);
      LastWriteWins(draft, r, pages, front, id, key);
      var prev := Run(draft, r, pages, front);
      StepGet(draft, prev, pages[p.i], p.k, Catalog[p.j], id, key);
      var w := LastWriter(before, key);
      if e != Some(key) && w.Some? {
        assert ps[w.value] == front[w.value];
      }
    }
  }

  /** The effects of one more position are one more effect. */
  lemma EffectsSnoc(draft: Draft, pages: seq<seq<string>>, ps: seq<Pos>)
    requires AllValid(pages, ps) && ps != []
    ensures AllValid(pages, ps[..|ps| - 1])
    ensures Effects(draft, pages, ps) ==
              Effects(draft, pages, ps[..|ps| - 1]) + [Effect(draft, pages[ps[|ps| - 1].i], ps[|ps| - 1].k, Catalog[ps[|ps| - 1].j])]
  {
  }

  /** The last writer after one more effect: that effect, if it writes `f`, and the earlier last writer otherwise. */
  lemma LastWriterSnoc(es: seq<Option<Field>>, e: Option<Field>, f: Field)
    ensures LastWriter(es + [e], f) == if e == Some(f) then Some(|es|) else LastWriter(es, f)
  {
    assert (es + [e])[..|es|] == es;
  }
}
