/**
 * First-match-wins rule tables over a cell's neighbourhood: a pattern of
 * requirements on the nine observations around a cell, and the ordered scan
 * that picks the first rule whose pattern fits. The autotiler's
 * classification passes are if-chains of this shape; writing them as data
 * gives an independent statement of which rule wins.
 */
module Patterns {
  import opened Options

  /** A cell and its eight neighbours: top, bottom, left, right and the diagonals. */
  datatype Nbhd<T> = Nbhd(x: T, t: T, b: T, l: T, r: T, tl: T, tr: T, bl: T, br: T)

  /** A requirement on one observation: don't care, must hold, must not hold. */
  datatype Need = Any | Yes | No

  predicate Fits(n: Need, b: bool) {
    match n
    case Any => true
    case Yes => b
    case No => !b
  }

  /** A pattern matches a probe when every position fits. */
  predicate Matches(p: Nbhd<Need>, probe: Nbhd<bool>) {
    Fits(p.x, probe.x) && Fits(p.t, probe.t) && Fits(p.b, probe.b) && Fits(p.l, probe.l) && Fits(p.r, probe.r)
    && Fits(p.tl, probe.tl) && Fits(p.tr, probe.tr) && Fits(p.bl, probe.bl) && Fits(p.br, probe.br)
  }

  datatype Rule<T> = Rule(pattern: Nbhd<Need>, out: T)

  /** The least index at or after `from` whose rule matches, or |rules| if none does. */
  function FirstIndex<T>(rules: seq<Rule<T>>, probe: Nbhd<bool>, from: nat): (i: nat)
    requires from <= |rules|
    ensures from <= i <= |rules|
    ensures i < |rules| ==> Matches(rules[i].pattern, probe)
    ensures forall j :: from <= j < i ==> !Matches(rules[j].pattern, probe)
    decreases |rules| - from
  {
    if from == |rules| then from
    else if Matches(rules[from].pattern, probe) then from
    else FirstIndex(rules, probe, from + 1)
  }

  /** The output of the first matching rule, if any rule matches. */
  function FirstMatch<T>(rules: seq<Rule<T>>, probe: Nbhd<bool>): (r: Option<T>)
    ensures r.None? <==> forall j :: 0 <= j < |rules| ==> !Matches(rules[j].pattern, probe)
  {
    var i := FirstIndex(rules, probe, 0);
    if i < |rules| then Some(rules[i].out) else None
  }

  /** The rule that matches with no earlier rule matching decides the result. */
  lemma FirstMatchAt<T>(rules: seq<Rule<T>>, probe: Nbhd<bool>, k: nat)
    requires k < |rules| && Matches(rules[k].pattern, probe)
    requires forall j :: 0 <= j < k ==> !Matches(rules[j].pattern, probe)
    ensures FirstMatch(rules, probe) == Some(rules[k].out)
  {
    var i := FirstIndex(rules, probe, 0);
    assert i <= k;
    assert i == k;
  }
}
