/**
 * Crop-name to crop-id tables as the Python code holds them: a dict, that
 * is, a sequence of (name, id) entries in insertion order with no name twice.
 * The training script builds one, pickles it, and the inference engine
 * loads it and inverts it.
 */
module LabelMaps {
  import opened Wrappers

  predicate NamesDistinct(t: seq<(string, int)>) {
    forall i, j :: 0 <= i < j < |t| ==> t[i].0 != t[j].0
  }

  /** A `dict` from crop name to crop id, in insertion order. */
  type LabelMap = t: seq<(string, int)> | NamesDistinct(t) witness []

  /** Length, first and last character of a non-empty name. */
  function NameKey(name: string): (int, char, char)
    requires |name| > 0
  {
    (|name|, name[0], name[|name| - 1])
  }

  /** Names are distinct when a cheap key of theirs is: used to check literal tables. */
  lemma DistinctByKey(t: seq<(string, int)>)
    requires forall i :: 0 <= i < |t| ==> |t[i].0| > 0
    requires forall i, j :: 0 <= i < j < |t| ==> NameKey(t[i].0) != NameKey(t[j].0)
    ensures NamesDistinct(t)
  {
  }

  predicate IdsDistinct(t: seq<(string, int)>) {
    forall i, j :: 0 <= i < j < |t| ==> t[i].1 != t[j].1
  }

  /** The ids occur in ascending order of insertion. */
  predicate IdsAscending(t: seq<(string, int)>) {
    forall i, j :: 0 <= i < j < |t| ==> t[i].1 < t[j].1
  }

  predicate StrictlyIncreasing(s: seq<int>) {
    forall i, j :: 0 <= i < j < |s| ==> s[i] < s[j]
  }

  function Names(t: seq<(string, int)>): (r: seq<string>)
    ensures |r| == |t| && forall i :: 0 <= i < |t| ==> r[i] == t[i].0
  {
    seq(|t|, i requires 0 <= i < |t| => t[i].0)
  }

  function Ids(t: seq<(string, int)>): (r: seq<int>)
    ensures |r| == |t| && forall i :: 0 <= i < |t| ==> r[i] == t[i].1
  {
    seq(|t|, i requires 0 <= i < |t| => t[i].1)
  }

  /** `t[name]`, or `None` where Python raises KeyError (or `.map` yields NaN). */
  function Get(t: LabelMap, name: string): (r: Option<int>)
    ensures r.Some? <==> name in Names(t)
    ensures forall i :: 0 <= i < |t| && t[i].0 == name ==> r == Some(t[i].1)
  {
    if |t| == 0 then None
    else if t[0].0 == name then Some(t[0].1)
    else Get(t[1..], name)
  }

  /**
   * `{v: k for k, v in t.items()}`: the entries are visited in insertion
   * order and a later entry overwrites an earlier one with the same id.
   * Whatever the table, every name the inverse gives back is entered in the
   * table with the id it was looked up with.
   */
  function Reverse(t: seq<(string, int)>): (r: map<int, string>)
    ensures forall id :: id in r <==> id in Ids(t)
    ensures forall id :: id in r ==> (r[id], id) in t
  {
    if |t| == 0 then map[]
    else
      var rest := Reverse(t[1..]);
      assert Ids(t) == [t[0].1] + Ids(t[1..]);
      if t[0].1 in rest then rest else rest[t[0].1 := t[0].0]
  }

  /** An entry of the table is what looking its name up gives. */
  lemma EntryIsLookup(t: LabelMap, name: string, id: int)
    requires (name, id) in t
    ensures Get(t, name) == Some(id)
  {
    var i :| 0 <= i < |t| && t[i] == (name, id);
  }

  /** With ids used once each, the inverse gives back every entry's name. */
  lemma {:induction false} ReverseRoundTrip(t: LabelMap)
    requires IdsDistinct(t)
    ensures forall i :: 0 <= i < |t| ==> t[i].1 in Reverse(t) && Reverse(t)[t[i].1] == t[i].0
  {
    if |t| > 0 {
      var rest: LabelMap := t[1..];
      ReverseRoundTrip(rest);
      assert t[0].1 !in Ids(rest);
    }
  }

  /** A table numbered 1, 2, ... in order holds exactly the ids 1..|t|. */
  lemma NumberedIds(t: seq<(string, int)>)
    requires forall i :: 0 <= i < |t| ==> t[i].1 == i + 1
    ensures forall id :: id in Ids(t) <==> 1 <= id <= |t|
  {
    forall id | 1 <= id <= |t| ensures id in Ids(t) {
      assert Ids(t)[id - 1] == id;
    }
  }

  /** `[k for k, v in t.items() if v in labels]`. */
  function NamesWithIds(t: LabelMap, labels: seq<int>): (r: seq<string>)
    ensures |r| <= |t|
    ensures forall k :: 0 <= k < |r| ==> Get(t, r[k]).Some? && Get(t, r[k]).value in labels
    ensures forall i :: 0 <= i < |t| && t[i].1 in labels ==> t[i].0 in r
  {
    if |t| == 0 then []
    else (if t[0].1 in labels then [t[0].0] else []) + NamesWithIds(t[1..], labels)
  }

  /** `a` is entered in `t` before `b`. */
  ghost predicate EnteredBefore(t: seq<(string, int)>, a: string, b: string) {
    exists i, j :: 0 <= i < j < |t| && t[i].0 == a && t[j].0 == b
  }

  /**
   * The names are picked out in table order: with the names distinct, each
   * appears once, and together with the membership clauses of
   * `NamesWithIds` this makes the result the in-order filter of the table.
   */
  lemma {:induction false} NamesWithIdsInTableOrder(t: LabelMap, labels: seq<int>)
    ensures forall k1, k2 :: 0 <= k1 < k2 < |NamesWithIds(t, labels)| ==>
      EnteredBefore(t, NamesWithIds(t, labels)[k1], NamesWithIds(t, labels)[k2])
  {
    if |t| > 0 {
      var tail: LabelMap := t[1..];
      var rest := NamesWithIds(tail, labels);
      NamesWithIdsInTableOrder(tail, labels);
      var r := NamesWithIds(t, labels);
      var head := if t[0].1 in labels then [t[0].0] else [];
      assert r == head + rest;
      forall k | 0 <= k < |rest| ensures rest[k] in Names(tail) {
        assert Get(tail, rest[k]).Some?;
      }
      HeadThenRestInOrder(t, head, rest);
    }
  }

  /**
   * Putting the first entry's name (or nothing) in front of names of the
   * later entries, taken in their order, keeps table order.
   */
  lemma HeadThenRestInOrder(t: seq<(string, int)>, head: seq<string>, rest: seq<string>)
    requires |t| > 0 && (head == [] || head == [t[0].0])
    requires forall k :: 0 <= k < |rest| ==> rest[k] in Names(t[1..])
    requires forall m1, m2 :: 0 <= m1 < m2 < |rest| ==> EnteredBefore(t[1..], rest[m1], rest[m2])
    ensures forall k1, k2 :: 0 <= k1 < k2 < |head + rest| ==>
      EnteredBefore(t, (head + rest)[k1], (head + rest)[k2])
  {
    var r := head + rest;
    forall k1, k2 | 0 <= k1 < k2 < |r| ensures EnteredBefore(t, r[k1], r[k2]) {
      if k1 < |head| {
        FirstEnteredBefore(t, rest[k2 - 1]);
      } else {
        var m1, m2 := k1 - |head|, k2 - |head|;
        assert EnteredBefore(t[1..], rest[m1], rest[m2]);
        LaterEnteredBefore(t, rest[m1], rest[m2]);
      }
    }
  }

  /** The first entry is entered before every name of the rest. */
  lemma FirstEnteredBefore(t: seq<(string, int)>, b: string)
    requires |t| > 0 && b in Names(t[1..])
    ensures EnteredBefore(t, t[0].0, b)
  {
    var j :| 0 <= j < |t| - 1 && Names(t[1..])[j] == b;
    assert t[j + 1].0 == b;
  }

  /** An order among the later entries holds in the whole table. */
  lemma LaterEnteredBefore(t: seq<(string, int)>, a: string, b: string)
    requires |t| > 0 && EnteredBefore(t[1..], a, b)
    ensures EnteredBefore(t, a, b)
  {
    var i, j :| 0 <= i < j < |t| - 1 && t[1..][i].0 == a && t[1..][j].0 == b;
    assert t[i + 1].0 == a && t[j + 1].0 == b;
  }

  lemma {:induction false} NamesWithIdsDependsOnMembership(t: LabelMap, a: seq<int>, b: seq<int>)
    requires forall i :: 0 <= i < |t| ==> (t[i].1 in a <==> t[i].1 in b)
    ensures NamesWithIds(t, a) == NamesWithIds(t, b)
  {
    if |t| > 0 {
      NamesWithIdsDependsOnMembership(t[1..], a, b);
    }
  }

  /**
   * When the table's ids ascend and `labels` is a sorted list of ids the table
   * holds, the names picked out in table order line up with `labels`: the
   * i-th name is the one whose id is `labels[i]`.
   */
  lemma {:induction false} NamesWithIdsAligned(t: LabelMap, labels: seq<int>)
    requires IdsAscending(t)
    requires StrictlyIncreasing(labels)
    requires forall j :: 0 <= j < |labels| ==> labels[j] in Ids(t)
    ensures |NamesWithIds(t, labels)| == |labels|
    ensures forall i :: 0 <= i < |labels| ==> Get(t, NamesWithIds(t, labels)[i]) == Some(labels[i])
  {
    if |t| == 0 {
      NoIdsNoLabels(t, labels);
    } else {
      if t[0].1 in labels {
        HeadIsFirstLabel(t, labels);
        NamesWithIdsAligned(t[1..], labels[1..]);
        AlignedWithHead(t, labels);
      } else {
        HeadIsNoLabel(t, labels);
        NamesWithIdsAligned(t[1..], labels);
        AlignedWithoutHead(t, labels);
      }
    }
  }

  /** An empty table holds none of a non-empty list of labels. */
  lemma NoIdsNoLabels(t: LabelMap, labels: seq<int>)
    requires |t| == 0
    ensures (forall j :: 0 <= j < |labels| ==> labels[j] in Ids(t)) ==> labels == []
  {
    if |labels| > 0 {
      assert labels[0] !in Ids(t);
    }
  }

  /** The smallest id of the table, when selected, is the first label. */
  lemma HeadIsFirstLabel(t: LabelMap, labels: seq<int>)
    requires |t| > 0 && t[0].1 in labels
    requires IdsAscending(t)
    requires StrictlyIncreasing(labels)
    requires forall j :: 0 <= j < |labels| ==> labels[j] in Ids(t)
    ensures labels[0] == t[0].1
    ensures forall m :: 1 <= m < |labels| ==> labels[m] in Ids(t[1..])
    ensures NamesWithIds(t[1..], labels) == NamesWithIds(t[1..], labels[1..])
  {
    var rest: LabelMap := t[1..];
    var j :| 0 <= j < |labels| && labels[j] == t[0].1;
    assert labels[0] in Ids(t);
    forall m | 1 <= m < |labels| ensures labels[m] in Ids(rest) {
      assert labels[m] in Ids(t) && labels[m] > t[0].1;
      var k :| 0 <= k < |t| && t[k].1 == labels[m];
      assert k > 0 && rest[k - 1] == t[k];
    }
    forall i | 0 <= i < |rest| ensures rest[i].1 in labels <==> rest[i].1 in labels[1..] {
      assert rest[i].1 > t[0].1;
      if rest[i].1 in labels {
        var m :| 0 <= m < |labels| && labels[m] == rest[i].1;
        assert m > 0 && labels[1..][m - 1] == labels[m];
      }
    }
    NamesWithIdsDependsOnMembership(rest, labels, labels[1..]);
  }

  lemma AlignedWithHead(t: LabelMap, labels: seq<int>)
    requires |t| > 0 && |labels| > 0 && labels[0] == t[0].1
    requires NamesWithIds(t[1..], labels) == NamesWithIds(t[1..], labels[1..])
    requires |NamesWithIds(t[1..], labels[1..])| == |labels| - 1
    requires forall i :: 0 <= i < |labels| - 1 ==>
      Get(t[1..], NamesWithIds(t[1..], labels[1..])[i]) == Some(labels[1..][i])
    ensures |NamesWithIds(t, labels)| == |labels|
    ensures forall i :: 0 <= i < |labels| ==> Get(t, NamesWithIds(t, labels)[i]) == Some(labels[i])
  {
    var rest: LabelMap := t[1..];
    var tail := labels[1..];
    var restNames := NamesWithIds(rest, tail);
    var names := NamesWithIds(t, labels);
    SelectedHead(t, labels);
    forall i | 0 <= i < |labels| ensures Get(t, names[i]) == Some(labels[i]) {
      if i > 0 {
        var n := restNames[i - 1];
        assert names[i] == n && Get(rest, n) == Some(tail[i - 1]);
        GetPastHead(t, n);
      }
    }
  }

  /** A selected first entry contributes the first name. */
  lemma SelectedHead(t: LabelMap, labels: seq<int>)
    requires |t| > 0 && t[0].1 in labels
    ensures |NamesWithIds(t, labels)| == |NamesWithIds(t[1..], labels)| + 1
    ensures NamesWithIds(t, labels)[0] == t[0].0
    ensures forall i :: 1 <= i < |NamesWithIds(t, labels)| ==>
      NamesWithIds(t, labels)[i] == NamesWithIds(t[1..], labels)[i - 1]
  {
    var rest := NamesWithIds(t[1..], labels);
    assert NamesWithIds(t, labels) == [t[0].0] + rest;
    ConsIndices(NamesWithIds(t, labels), t[0].0, rest);
  }

  /** Indexing into a sequence built by putting `x` in front of `rest`. */
  lemma ConsIndices<T>(s: seq<T>, x: T, rest: seq<T>)
    requires s == [x] + rest
    ensures |s| == |rest| + 1 && s[0] == x
    ensures forall i :: 1 <= i < |s| ==> s[i] == rest[i - 1]
  {
  }

  /** A name entered after the first entry is looked up as in the rest of the table. */
  lemma GetPastHead(t: LabelMap, name: string)
    requires |t| > 0 && Get(t[1..], name).Some?
    ensures Get(t, name) == Get(t[1..], name)
  {
    var rest: LabelMap := t[1..];
    var k :| 0 <= k < |rest| && rest[k].0 == name;
    assert t[k + 1] == rest[k];
  }

  /** An unselected first entry leaves every label among the remaining ids. */
  lemma HeadIsNoLabel(t: LabelMap, labels: seq<int>)
    requires |t| > 0 && t[0].1 !in labels
    requires forall j :: 0 <= j < |labels| ==> labels[j] in Ids(t)
    ensures forall m :: 0 <= m < |labels| ==> labels[m] in Ids(t[1..])
  {
    var rest: LabelMap := t[1..];
    forall m | 0 <= m < |labels| ensures labels[m] in Ids(rest) {
      var k :| 0 <= k < |t| && t[k].1 == labels[m];
      assert k > 0 && rest[k - 1] == t[k];
    }
  }

  lemma AlignedWithoutHead(t: LabelMap, labels: seq<int>)
    requires |t| > 0 && t[0].1 !in labels
    requires |NamesWithIds(t[1..], labels)| == |labels|
    requires forall i :: 0 <= i < |labels| ==> Get(t[1..], NamesWithIds(t[1..], labels)[i]) == Some(labels[i])
    ensures |NamesWithIds(t, labels)| == |labels|
    ensures forall i :: 0 <= i < |labels| ==> Get(t, NamesWithIds(t, labels)[i]) == Some(labels[i])
  {
    var rest: LabelMap := t[1..];
    var names := NamesWithIds(t, labels);
    assert names == NamesWithIds(rest, labels);
    forall i | 0 <= i < |labels| ensures Get(t, names[i]) == Some(labels[i]) {
      assert Get(rest, names[i]) == Some(labels[i]);
      assert names[i] in Names(rest);
    }
  }
}
