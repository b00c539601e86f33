/**
 * The penalty vocabulary both scorers share: tiered threshold penalties, the
 * ordered penalty dictionary, its sum and the status label built from the
 * categories that incurred a penalty (`", ".join(active_labels)`).
 */
module Penalties {

  /** One entry of the insertion-ordered `penalties` dictionary. */
  datatype Penalty = Penalty(name: string, points: int)

  /**
   * The three-tier rule every `_penalty_from_*` method follows: no penalty
   * below `warn`, `warnPoints` below `bad`, `badPoints` from `bad` on.
   */
  function Tiered(x: real, warn: real, bad: real, warnPoints: int, badPoints: int): (r: int)
    requires warn < bad && 0 < warnPoints < badPoints
    ensures r == 0 <==> x < warn
    ensures r == warnPoints <==> warn <= x < bad
    ensures r == badPoints <==> bad <= x
  {
    if x < warn then 0 else if x < bad then warnPoints else badPoints
  }

  /** A tiered penalty never decreases as its measurement grows. */
  lemma TieredMonotone(x: real, y: real, warn: real, bad: real, warnPoints: int, badPoints: int)
    requires warn < bad && 0 < warnPoints < badPoints
    requires x <= y
    ensures Tiered(x, warn, bad, warnPoints, badPoints) <= Tiered(y, warn, bad, warnPoints, badPoints)
  {
  }

  /** `sum(penalties.values())`. */
  function Total(ps: seq<Penalty>): int
  {
    if ps == [] then 0 else ps[0].points + Total(ps[1..])
  }

  /** The sum of a four-entry dictionary, written out. */
  lemma TotalOfFour(ps: seq<Penalty>)
    requires |ps| == 4
    ensures Total(ps) == ps[0].points + ps[1].points + ps[2].points + ps[3].points
  {
    assert Total(ps[3..]) == ps[3].points + Total(ps[4..]);
    assert Total(ps[2..]) == ps[2].points + Total(ps[2..][1..]);
    assert ps[2..][1..] == ps[3..];
    assert Total(ps[1..]) == ps[1].points + Total(ps[1..][1..]);
    assert ps[1..][1..] == ps[2..];
  }

  /** The sum of a three-entry dictionary, written out. */
  lemma TotalOfThree(ps: seq<Penalty>)
    requires |ps| == 3
    ensures Total(ps) == ps[0].points + ps[1].points + ps[2].points
  {
    assert Total(ps[2..]) == ps[2].points + Total(ps[3..]);
    assert Total(ps[1..]) == ps[1].points + Total(ps[1..][1..]);
    assert ps[1..][1..] == ps[2..];
  }

  /** `[name for name, p in penalties.items() if p > 0]`. */
  function ActiveLabels(ps: seq<Penalty>): seq<string>
  {
    if ps == [] then []
    else (if ps[0].points > 0 then [ps[0].name] else []) + ActiveLabels(ps[1..])
  }

  /** A name is listed exactly when some entry with that name has a positive penalty. */
  lemma {:induction false} ActiveLabelsMembership(ps: seq<Penalty>, n: string)
    ensures n in ActiveLabels(ps) <==> exists i :: 0 <= i < |ps| && ps[i].name == n && ps[i].points > 0
  {
    if ps != [] {
      ActiveLabelsMembership(ps[1..], n);
      if n in ActiveLabels(ps[1..]) {
        var i :| 0 <= i < |ps[1..]| && ps[1..][i].name == n && ps[1..][i].points > 0;
        assert ps[i + 1].name == n && ps[i + 1].points > 0;
      }
      if exists i :: 0 <= i < |ps| && ps[i].name == n && ps[i].points > 0 {
        var i :| 0 <= i < |ps| && ps[i].name == n && ps[i].points > 0;
        if i > 0 {
          assert ps[1..][i - 1] == ps[i];
        }
      }
    }
  }

  /** No label is listed exactly when no entry has a positive penalty. */
  lemma {:induction false} ActiveLabelsEmpty(ps: seq<Penalty>)
    ensures ActiveLabels(ps) == [] <==> forall i :: 0 <= i < |ps| ==> ps[i].points <= 0
  {
    if ps != [] {
      ActiveLabelsEmpty(ps[1..]);
      assert forall i :: 1 <= i < |ps| ==> ps[i] == ps[1..][i - 1];
    }
  }

  /** Entries carry pairwise different names, as the keys of a dictionary do. */
  predicate UniqueNames(ps: seq<Penalty>)
  {
    forall i, j :: 0 <= i < j < |ps| ==> ps[i].name != ps[j].name
  }

  /** With unique names, an entry's name is listed iff its own penalty is positive. */
  lemma ActiveLabelsOfEntry(ps: seq<Penalty>, i: int)
    requires UniqueNames(ps) && 0 <= i < |ps|
    ensures ps[i].name in ActiveLabels(ps) <==> ps[i].points > 0
  {
    ActiveLabelsMembership(ps, ps[i].name);
  }

  /** `sep.join(labels)`. */
  function Join(labels: seq<string>, sep: string): string
  {
    if |labels| == 0 then ""
    else if |labels| == 1 then labels[0]
    else labels[0] + sep + Join(labels[1..], sep)
  }

  /** A non-empty join starts with its first label. */
  lemma JoinStartsWithFirst(labels: seq<string>, sep: string)
    requires |labels| > 0
    ensures |labels[0]| <= |Join(labels, sep)|
    ensures Join(labels, sep)[..|labels[0]|] == labels[0]
  {
  }

  /** `"Good" if not active_labels else ", ".join(active_labels)`. */
  function Status(ps: seq<Penalty>): string
  {
    var labels := ActiveLabels(ps);
    if labels == [] then "Good" else Join(labels, ", ")
  }

  /**
   * Category names that cannot be mistaken for the word "Good": each is
   * non-empty and does not start with 'G'.
   */
  predicate DistinctFromGood(ps: seq<Penalty>)
  {
    forall i :: 0 <= i < |ps| ==> |ps[i].name| > 0 && ps[i].name[0] != 'G'
  }

  /** The status is "Good" exactly when no category incurred a penalty. */
  lemma StatusGoodIff(ps: seq<Penalty>)
    requires DistinctFromGood(ps)
    ensures Status(ps) == "Good" <==> forall i :: 0 <= i < |ps| ==> ps[i].points <= 0
  {
    ActiveLabelsEmpty(ps);
    var labels := ActiveLabels(ps);
    if labels != [] {
      ActiveLabelsMembership(ps, labels[0]);
      var i :| 0 <= i < |ps| && ps[i].name == labels[0] && ps[i].points > 0;
      JoinStartsWithFirst(labels, ", ");
      assert Join(labels, ", ")[0] == labels[0][0];
    }
  }
}
