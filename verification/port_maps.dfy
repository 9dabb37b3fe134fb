/**
 * The name-keyed port mapping `{p.name: p for p in port_list}`. A Python `dict` keeps
 * its keys in insertion order, and assigning to a key that is already present
 * replaces its value in place; the mapping is modelled as an association list with
 * exactly those semantics.
 */
module PortMaps {
  import opened Results
  import opened Signals

  datatype Entry = Entry(key: string, port: Signal)

  /** A `dict` from port names to ports, in insertion order. */
  type PortDict = seq<Entry>

  /** The keys of a dict, in iteration order. */
  function Keys(d: PortDict): (ks: seq<string>)
    ensures |ks| == |d|
    ensures forall i :: 0 <= i < |d| ==> ks[i] == d[i].key
  {
    seq(|d|, i requires 0 <= i < |d| => d[i].key)
  }

  ghost predicate Distinct(s: seq<string>) {
    forall i, j :: 0 <= i < j < |s| ==> s[i] != s[j]
  }

  /** The position of the first occurrence of `x` in `s`. */
  function FirstIndex(s: seq<string>, x: string): (i: nat)
    requires x in s
    ensures i < |s| && s[i] == x
    ensures forall j :: 0 <= j < i ==> s[j] != x
  {
    if s[0] == x then 0 else 1 + FirstIndex(s[1..], x)
  }

  /** The position of the last occurrence of `x` in `s`. */
  function LastIndex(s: seq<string>, x: string): (i: nat)
    requires x in s
    ensures i < |s| && s[i] == x
    ensures forall j :: i < j < |s| ==> s[j] != x
  {
    if s[|s| - 1] == x then |s| - 1
    else
      assert x in s[..|s| - 1] by {
        var k :| 0 <= k < |s| && s[k] == x;
        assert k < |s| - 1 && s[..|s| - 1][k] == x;
      }
      LastIndex(s[..|s| - 1], x)
  }

  /** `d[k]`, or `None` when `k` is not a key. */
  function Get(d: PortDict, k: string): Option<Signal> {
    var ks := Keys(d);
    if k in ks then Some(d[FirstIndex(ks, k)].port) else None
  }

  /** `d[k] = v`: replace the value of an existing key in place, or append a new entry. */
  function Put(d: PortDict, k: string, v: Signal): (r: PortDict)
    ensures Keys(r) == if k in Keys(d) then Keys(d) else Keys(d) + [k]
    ensures forall i :: 0 <= i < |d| && d[i].key != k ==> r[i] == d[i]
    ensures k in Keys(r) && r[FirstIndex(Keys(r), k)] == Entry(k, v)
  {
    var ks := Keys(d);
    if k in ks then
      var r := d[FirstIndex(ks, k) := Entry(k, v)];
      assert Keys(r) == ks;
      r
    else
      var r := d + [Entry(k, v)];
      assert Keys(r) == ks + [k];
      r
  }

  /** The dict comprehension `{p.name: p for p in l}`, evaluated left to right. */
  function PortsOf(l: seq<Signal>): PortDict {
    if |l| == 0 then []
    else
      var p := l[|l| - 1];
      Put(PortsOf(l[..|l| - 1]), p.name, p)
  }

  /** The keys are exactly the names of `l`, each once. */
  ghost predicate KeysAreNames(d: PortDict, l: seq<Signal>) {
    && Distinct(Keys(d))
    && forall k :: k in Keys(d) <==> k in Names(l)
  }

  /** `x` and `y` both occur in `ns`, and `x` occurs first. */
  ghost predicate Precedes(ns: seq<string>, x: string, y: string) {
    x in ns && y in ns && FirstIndex(ns, x) < FirstIndex(ns, y)
  }

  /** The strings of `ks` occur in `ns`, ordered by their first occurrence there. */
  ghost predicate OrderedByFirstOccurrence(ks: seq<string>, ns: seq<string>) {
    forall a, b :: 0 <= a < b < |ks| ==> Precedes(ns, ks[a], ks[b])
  }

  /** Keys appear in the order in which their names first occur in `l`. */
  ghost predicate FirstOccurrenceOrder(d: PortDict, l: seq<Signal>) {
    OrderedByFirstOccurrence(Keys(d), Names(l))
  }

  /** Each key maps to the last port of `l` carrying that name. */
  ghost predicate LastWins(d: PortDict, l: seq<Signal>) {
    var ns := Names(l);
    forall i :: 0 <= i < |d| ==> d[i].key in ns && d[i].port == l[LastIndex(ns, d[i].key)]
  }

  lemma FirstIndexUnique(s: seq<string>, x: string, i: nat)
    requires i < |s| && s[i] == x
    requires forall j :: 0 <= j < i ==> s[j] != x
    ensures FirstIndex(s, x) == i
  {
  }

  lemma LastIndexUnique(s: seq<string>, x: string, i: nat)
    requires i < |s| && s[i] == x
    requires forall j :: i < j < |s| ==> s[j] != x
    ensures LastIndex(s, x) == i
  {
  }

  lemma NamesSnoc(l: seq<Signal>)
    requires |l| > 0
    ensures Names(l) == Names(l[..|l| - 1]) + [l[|l| - 1].name]
  {
  }

  /** The keys of the mapping are exactly the port names, each once. */
  lemma {:induction false} PortsOfKeys(l: seq<Signal>)
    ensures KeysAreNames(PortsOf(l), l)
  {
    if |l| > 0 {
      var n := |l| - 1;
      PortsOfKeys(l[..n]);
      NamesSnoc(l);
    }
  }

  lemma FirstIndexSnoc(ns: seq<string>, x: string, y: string)
    requires y in ns
    ensures FirstIndex(ns + [x], y) == FirstIndex(ns, y)
  {
    FirstIndexUnique(ns + [x], y, FirstIndex(ns, y));
  }

  /** Appending a name that already occurs keeps every first occurrence where it was. */
  lemma OrderedSnocName(ks: seq<string>, ns: seq<string>, x: string)
    requires OrderedByFirstOccurrence(ks, ns)
    ensures OrderedByFirstOccurrence(ks, ns + [x])
  {
    forall a, b | 0 <= a < b < |ks|
      ensures Precedes(ns + [x], ks[a], ks[b])
    {
      assert Precedes(ns, ks[a], ks[b]);
      FirstIndexSnoc(ns, x, ks[a]);
      FirstIndexSnoc(ns, x, ks[b]);
    }
  }

  /** Appending a new name to both the names and the keys puts it last in both. */
  lemma OrderedSnocNew(ks: seq<string>, ns: seq<string>, x: string)
    requires OrderedByFirstOccurrence(ks, ns)
    requires forall k :: k in ks ==> k in ns
    requires x !in ns
    ensures OrderedByFirstOccurrence(ks + [x], ns + [x])
  {
    var ks', ns' := ks + [x], ns + [x];
    OrderedSnocName(ks, ns, x);
    FirstIndexUnique(ns', x, |ns|);
    forall a, b | 0 <= a < b < |ks'|
      ensures Precedes(ns', ks'[a], ks'[b])
    {
      assert ks'[a] == ks[a];
      if b < |ks| {
        assert ks'[b] == ks[b];
      }
    }
  }

  /** Keys appear in the order in which the names first occur in `port_list`. */
  lemma {:induction false} PortsOfOrder(l: seq<Signal>)
    ensures FirstOccurrenceOrder(PortsOf(l), l)
  {
    if |l| == 0 {
      return;
    }
    var n := |l| - 1;
    var init, p := l[..n], l[n];
    PortsOfOrder(init);
    PortsOfKeys(init);
    NamesSnoc(l);
    var ks0 := Keys(PortsOf(init));
    if p.name in ks0 {
      OrderedSnocName(ks0, Names(init), p.name);
    } else {
      OrderedSnocNew(ks0, Names(init), p.name);
    }
  }

  lemma LastIndexSnoc(ns: seq<string>, x: string, y: string)
    requires y in ns && y != x
    ensures LastIndex(ns + [x], y) == LastIndex(ns, y)
  {
    LastIndexUnique(ns + [x], y, LastIndex(ns, y));
  }

  /** One step of the comprehension keeps every key bound to the last port with its name. */
  lemma LastWinsSnoc(d0: PortDict, l: seq<Signal>)
    requires |l| > 0
    requires LastWins(d0, l[..|l| - 1])
    requires Distinct(Keys(Put(d0, l[|l| - 1].name, l[|l| - 1])))
    ensures LastWins(Put(d0, l[|l| - 1].name, l[|l| - 1]), l)
  {
    var init, p := l[..|l| - 1], l[|l| - 1];
    var d := Put(d0, p.name, p);
    var ns0, ns := Names(init), Names(l);
    NamesSnoc(l);
    LastIndexUnique(ns, p.name, |init|);
    forall i | 0 <= i < |d|
      ensures d[i].key in ns && d[i].port == l[LastIndex(ns, d[i].key)]
    {
      if d[i].key == p.name {
        FirstIndexUnique(Keys(d), p.name, i);
      } else {
        assert d[i] == d0[i];
        LastIndexSnoc(ns0, p.name, d[i].key);
      }
    }
  }

  /** Each key maps to the last port of `port_list` with that name: a later duplicate wins. */
  lemma {:induction false} PortsOfLastWins(l: seq<Signal>)
    ensures LastWins(PortsOf(l), l)
  {
    if |l| == 0 {
      return;
    }
    var n := |l| - 1;
    var init, p := l[..n], l[n];
    PortsOfLastWins(init);
    PortsOfKeys(l);
    LastWinsSnoc(PortsOf(init), l);
  }

  /** A dict holding one entry per port of `l`, in list order. */
  ghost predicate OneEntryPerPort(d: PortDict, l: seq<Signal>) {
    |d| == |l| && forall i :: 0 <= i < |l| ==> d[i] == Entry(l[i].name, l[i])
  }

  lemma OneEntryPerPortSnoc(d0: PortDict, l: seq<Signal>)
    requires |l| > 0
    requires OneEntryPerPort(d0, l[..|l| - 1])
    requires l[|l| - 1].name !in Names(l[..|l| - 1])
    ensures OneEntryPerPort(Put(d0, l[|l| - 1].name, l[|l| - 1]), l)
  {
    var init, p := l[..|l| - 1], l[|l| - 1];
    assert Keys(d0) == Names(init);
    var d := Put(d0, p.name, p);
    assert d == d0 + [Entry(p.name, p)];
  }

  /** With distinct names every port gets its own entry, in list order. */
  lemma {:induction false} PortsOfDistinctNames(l: seq<Signal>)
    requires Distinct(Names(l))
    ensures OneEntryPerPort(PortsOf(l), l)
  {
    if |l| == 0 {
      return;
    }
    var n := |l| - 1;
    var init := l[..n];
    NamesSnoc(l);
    assert Distinct(Names(init));
    PortsOfDistinctNames(init);
    OneEntryPerPortSnoc(PortsOf(init), l);
  }

  /** With distinct names the keys are the names themselves, in list order. */
  lemma DistinctNamesAreKeys(l: seq<Signal>)
    requires Distinct(Names(l))
    ensures Keys(PortsOf(l)) == Names(l)
  {
    PortsOfDistinctNames(l);
  }

  /** Looking a name up in the mapping yields the last port carrying it, or nothing. */
  lemma PortsOfGet(l: seq<Signal>, k: string)
    ensures k in Names(l) ==> Get(PortsOf(l), k) == Some(l[LastIndex(Names(l), k)])
    ensures k !in Names(l) ==> Get(PortsOf(l), k) == None
    ensures Get(PortsOf(l), k).Some? ==> Get(PortsOf(l), k).value.name == k
  {
    PortsOfKeys(l);
    PortsOfLastWins(l);
  }
}
