/** The view of the cluster that the permit gate reads: pods with their
    namespace, labels and phase, the pod lister's label selection, and the
    framework's waiting pods, which the gate may allow. */
module Pods {

  /** The label whose value names a pod's group. */
  const PodGroupName: string := "pod-group.scheduling.bdap.com/name"

  /** A pod's phase; `Unset` is the empty phase of a pod whose status has not
      been reported. */
  datatype PodPhase = Unset | Pending | Running | Succeeded | Failed | Unknown

  datatype Pod = Pod(name: string, namespace: string, labels: map<string, string>, phase: PodPhase)

  /** Go's map index `pod.Labels[key]`: the empty string when the key is absent. */
  function LabelValue(p: Pod, key: string): string {
    if key in p.labels then p.labels[key] else ""
  }

  predicate IsRunning(p: Pod) {
    p.phase == Running
  }

  /** Whether `labels.Set{PodGroupName: g}.AsSelector()` matches the pod:
      the label is present and equal to `g`. */
  predicate SelectedBy(p: Pod, g: string) {
    PodGroupName in p.labels && p.labels[PodGroupName] == g
  }

  /** Whether the pod lister scoped to namespace `ns` returns `p` for the
      selector of group `g`. */
  predicate Listed(p: Pod, ns: string, g: string) {
    p.namespace == ns && SelectedBy(p, g)
  }

  function ListedIn(ns: string, g: string): Pod -> bool {
    p => Listed(p, ns, g)
  }

  /** Whether a waiting pod counts as a sibling of group `g` in `ns`: its group
      label, read with Go's map index, equals `g` and it lives in `ns`. */
  predicate Sibling(p: Pod, ns: string, g: string) {
    LabelValue(p, PodGroupName) == g && p.namespace == ns
  }

  function SiblingIn(ns: string, g: string): Pod -> bool {
    p => Sibling(p, ns, g)
  }

  /** For a non-empty group name the selector and the map-index comparison
      agree, so the lister and the waiting-pod scan select the same pods. */
  lemma SelectorAgreesWithSibling(p: Pod, ns: string, g: string)
    requires g != ""
    ensures Listed(p, ns, g) <==> Sibling(p, ns, g)
  {
  }

  // ---------------------------------------------------------------------
  // Counting and filtering sequences

  /** The number of elements of `s` that satisfy `keep`. */
  function Count<T>(s: seq<T>, keep: T -> bool): (n: nat)
    ensures n <= |s|
  {
    if s == [] then 0
    else Count(s[..|s| - 1], keep) + (if keep(s[|s| - 1]) then 1 else 0)
  }

  /** The elements of `s` that satisfy `keep`, in order: how the lister's
      result is obtained from the snapshot. */
  function Filter<T(!new)>(s: seq<T>, keep: T -> bool): (r: seq<T>)
    ensures |r| <= |s|
    ensures forall x :: x in r <==> x in s && keep(x)
  {
    if s == [] then []
    else Filter(s[..|s| - 1], keep) + (if keep(s[|s| - 1]) then [s[|s| - 1]] else [])
  }

  /** The positions of `s` whose element satisfies `keep`. */
  function Positions<T>(s: seq<T>, keep: T -> bool): set<int> {
    set i | 0 <= i < |s| && keep(s[i])
  }

  function Both<T>(p: T -> bool, q: T -> bool): T -> bool {
    x => p(x) && q(x)
  }

  /** `Count` counts each satisfying position exactly once. */
  lemma {:induction false} CountIsCardinality<T>(s: seq<T>, keep: T -> bool)
    ensures Count(s, keep) == |Positions(s, keep)|
  {
    if s != [] {
      var init, last := s[..|s| - 1], |s| - 1;
      CountIsCardinality(init, keep);
      assert Positions(s, keep) == Positions(init, keep) + (if keep(s[last]) then {last} else {});
      assert last !in Positions(init, keep);
    }
  }

  /** Counting `q` among the elements that `p` keeps is counting `p` and `q`
      together over the whole sequence. */
  lemma {:induction false} CountFilter<T(!new)>(s: seq<T>, p: T -> bool, q: T -> bool)
    ensures Count(Filter(s, p), q) == Count(s, Both(p, q))
  {
    if s != [] {
      var init, x := s[..|s| - 1], s[|s| - 1];
      CountFilter(init, p, q);
      var f := Filter(init, p);
      assert Both(p, q)(x) == (p(x) && q(x));
      if p(x) {
        assert Filter(s, p) == f + [x];
        assert (f + [x])[..|f + [x]| - 1] == f;
      } else {
        assert Filter(s, p) == f;
      }
    }
  }

  /** The count over a concatenation is the sum of the counts of its parts. */
  lemma {:induction false} CountAppend<T>(s: seq<T>, t: seq<T>, keep: T -> bool)
    ensures Count(s + t, keep) == Count(s, keep) + Count(t, keep)
    decreases |t|
  {
    if t == [] {
      assert s + t == s;
    } else {
      var init := t[..|t| - 1];
      assert (s + t)[..|s + t| - 1] == s + init;
      assert (s + t)[|s + t| - 1] == t[|t| - 1];
      CountAppend(s, init, keep);
    }
  }

  // ---------------------------------------------------------------------
  // Waiting pods

  /** A pod held at the permit stage by the scheduling framework. Its pod
      never changes; `allowedBy` records, in order, the plugins that called
      `Allow` on it. */
  class WaitingPod {
    const pod: Pod
    var allowedBy: seq<string>

    constructor (pod: Pod)
      ensures this.pod == pod && allowedBy == []
    {
      this.pod := pod;
      allowedBy := [];
    }

    /** `WaitingPod.Allow(pluginName)`. */
    method Allow(plugin: string)
      modifies this
      ensures allowedBy == old(allowedBy) + [plugin]
    {
      allowedBy := allowedBy + [plugin];
    }
  }

  /** The pods of a sequence of waiting pods, position by position. */
  function PodsOf(ws: seq<WaitingPod>): seq<Pod> {
    seq(|ws|, i requires 0 <= i < |ws| => ws[i].pod)
  }

  /** The framework keys waiting pods by UID, so no waiting pod is visited twice. */
  predicate Distinct(ws: seq<WaitingPod>) {
    forall i, j :: 0 <= i < j < |ws| ==> ws[i] != ws[j]
  }
}
