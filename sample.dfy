/** The permit gate of the `sample` scheduler plugin: gang admission. For one
    pod it decides whether the pod may be bound now (`Success`), must wait for
    the rest of its group (`Wait`, with a timeout), or cannot be admitted
    because its group's configuration is missing or malformed (`Error`). When
    the pod completes its group's quorum, it allows every waiting sibling. */
module Sample {
  import opened Wrappers
  import opened Strconv
  import opened Pods

  /** The plugin's name, which it passes to `Allow`. */
  const Name: string := "sample"

  const MinAvailableKey: string := "minAvailable"
  const ScheduleTimeoutKey: string := "scheduleTimeoutSeconds"
  const DefaultScheduleTimeoutSeconds: int := 10

  const ConfigMapNotFoundMessage: string := "podgroup configmap not found, please create configmap first"
  const MinAvailableMissingMessage: string := "minAvailable field not found in podgroup configmap"

  /** The framework status codes the gate returns. */
  datatype Code = Success | Error | Wait

  datatype Status = Status(code: Code, message: string)

  /** What the config-map lister's `Get` returns for a group: not found, some
      other error (with its text), or the config map's data. */
  datatype ConfigLookup = NotFound | LookupFailed(message: string) | Found(data: map<string, string>)

  /** The config-map lister: the lookup for (namespace, config map name). */
  type ConfigStore = (string, string) -> ConfigLookup

  /** The admission rule a group's configuration imposes: none (a quorum of at
      most one), or a quorum with the time a pod may wait for it. */
  datatype Gate = Ungated | Quorum(minAvailable: int, timeoutSeconds: int)

  /** The outcome of one permit decision: the status, the timeout in seconds,
      and the group whose waiting siblings are allowed, if any. */
  datatype Verdict = Verdict(status: Status, timeoutSeconds: int, released: Option<string>)

  // ---------------------------------------------------------------------
  // Specification

  /** The pod's group: the value of its group label, if present and non-empty. */
  function GroupOf(pod: Pod): Option<string> {
    if PodGroupName in pod.labels && pod.labels[PodGroupName] != "" then Some(pod.labels[PodGroupName])
    else None
  }

  /** Reads the group's configuration. `minAvailable` must be present and
      parse; only when it exceeds one is `scheduleTimeoutSeconds` read, which
      defaults to ten seconds when absent and must parse when present. An
      error carries the status message the gate reports. */
  function ResolveGate(lookup: ConfigLookup): Result<Gate, string> {
    match lookup
    case NotFound => Err(ConfigMapNotFoundMessage)
    case LookupFailed(msg) => Err(msg)
    case Found(data) =>
      if MinAvailableKey !in data then Err(MinAvailableMissingMessage)
      else
        match Atoi(data[MinAvailableKey])
        case Err(e) => Err(e.Error())
        case Ok(minAvailable) =>
          if minAvailable <= 1 then Ok(Ungated)
          else if ScheduleTimeoutKey !in data then Ok(Quorum(minAvailable, DefaultScheduleTimeoutSeconds))
          else
            match Atoi(data[ScheduleTimeoutKey])
            case Err(e) => Err(e.Error())
            case Ok(timeout) => Ok(Quorum(minAvailable, timeout))
  }

  /** What the pod lister returns for namespace `ns` and group `g`. */
  function ListPods(snapshot: seq<Pod>, ns: string, g: string): seq<Pod> {
    Filter(snapshot, ListedIn(ns, g))
  }

  /** The running members of group `g` in `ns`. */
  function RunningCount(snapshot: seq<Pod>, ns: string, g: string): nat {
    Count(ListPods(snapshot, ns, g), IsRunning)
  }

  /** The waiting siblings of group `g` in `ns`. */
  function WaitingCount(waiting: seq<Pod>, ns: string, g: string): nat {
    Count(waiting, SiblingIn(ns, g))
  }

  /** The status message of a pod told to wait. */
  function WaitMessage(ns: string, g: string, name: string, minAvailable: int, running: int, waiting: int): string {
    "The count of podGroup " + ns + "/" + g + "/" + name
    + " is not up to minAvailable(" + Itoa(minAvailable) + ") in Permit: running("
    + Itoa(running) + "), waiting(" + Itoa(waiting) + ")"
  }

  /** The permit decision for `pod`, given the config-map store, the pods the
      lister can see and the pods currently waiting. */
  function Decide(pod: Pod, store: ConfigStore, snapshot: seq<Pod>, waiting: seq<Pod>): (v: Verdict)
    ensures v.status.code != Wait ==> v.timeoutSeconds == 0
    ensures v.released.Some? ==> v.status.code == Success && v.released == GroupOf(pod)
    ensures v.status.code == Error ==> GroupOf(pod).Some? && ResolveGate(store(pod.namespace, GroupOf(pod).value)).Err?
  {
    match GroupOf(pod)
    case None => Verdict(Status(Success, ""), 0, None)
    case Some(g) =>
      match ResolveGate(store(pod.namespace, g))
      case Err(msg) => Verdict(Status(Error, msg), 0, None)
      case Ok(Ungated) => Verdict(Status(Success, ""), 0, None)
      case Ok(Quorum(minAvailable, timeout)) =>
        var running := RunningCount(snapshot, pod.namespace, g);
        var waitingCount := WaitingCount(waiting, pod.namespace, g);
        if running + waitingCount + 1 < minAvailable then
          Verdict(Status(Wait, WaitMessage(pod.namespace, g, pod.name, minAvailable, running, waitingCount)), timeout, None)
        else
          Verdict(Status(Success, ""), 0, Some(g))
  }

  /** Whether the verdict for a pod in namespace `ns` allows the waiting pod `q`. */
  predicate Releases(v: Verdict, ns: string, q: Pod) {
    v.released.Some? && Sibling(q, ns, v.released.value)
  }

  // ---------------------------------------------------------------------
  // Implementation

  /** The loop over the lister's result that counts running pods. */
  method CountRunning(pods: seq<Pod>) returns (running: nat)
    ensures running == Count(pods, IsRunning)
  {
    running := 0;
    for i := 0 to |pods|
      invariant running == Count(pods[..i], IsRunning)
    {
      assert pods[..i + 1][..i] == pods[..i];
      if pods[i].phase == Running {
        running := running + 1;
      }
    }
    assert pods[..|pods|] == pods;
  }

  /** The first pass over the waiting pods, counting the siblings of `g` in `ns`. */
  method CountWaiting(waiting: seq<WaitingPod>, ns: string, g: string) returns (count: nat)
    ensures count == Count(PodsOf(waiting), SiblingIn(ns, g))
  {
    ghost var pods := PodsOf(waiting);
    count := 0;
    for i := 0 to |waiting|
      invariant count == Count(pods[..i], SiblingIn(ns, g))
    {
      assert pods[..i + 1][..i] == pods[..i];
      var wp := waiting[i];
      if LabelValue(wp.pod, PodGroupName) == g && wp.pod.namespace == ns {
        count := count + 1;
      }
    }
    assert pods[..|waiting|] == pods;
  }

  /** The second pass over the waiting pods: every sibling of `g` in `ns` is
      allowed once, in the name of this plugin, and every other waiting pod
      is left as it was. */
  method AllowSiblings(waiting: seq<WaitingPod>, ns: string, g: string)
    requires Distinct(waiting)
    modifies set w | w in waiting
    ensures forall w :: w in waiting ==>
              w.allowedBy == old(w.allowedBy) + (if Sibling(w.pod, ns, g) then [Name] else [])
  {
    for i := 0 to |waiting|
      invariant forall k :: 0 <= k < i ==>
                  waiting[k].allowedBy == old(waiting[k].allowedBy) + (if Sibling(waiting[k].pod, ns, g) then [Name] else [])
      invariant forall k :: i <= k < |waiting| ==> waiting[k].allowedBy == old(waiting[k].allowedBy)
    {
      var wp := waiting[i];
      if wp.pod.namespace == ns && LabelValue(wp.pod, PodGroupName) == g {
        wp.Allow(Name);
      }
    }
  }

  /** `Sample.Permit`. The result is the decision `Decide` specifies, and
      exactly the waiting siblings it releases are allowed, each once. */
  method Permit(pod: Pod, store: ConfigStore, snapshot: seq<Pod>, waiting: seq<WaitingPod>)
    returns (status: Status, timeoutSeconds: int)
    requires Distinct(waiting)
    modifies set w | w in waiting
    ensures var v := Decide(pod, store, snapshot, PodsOf(waiting));
            status == v.status && timeoutSeconds == v.timeoutSeconds
    ensures forall w :: w in waiting ==>
              w.allowedBy == old(w.allowedBy)
                             + (if Releases(Decide(pod, store, snapshot, PodsOf(waiting)), pod.namespace, w.pod) then [Name] else [])
  {
    if PodGroupName !in pod.labels || pod.labels[PodGroupName] == "" {
      return Status(Success, ""), 0;
    }
    var podGroupName := pod.labels[PodGroupName];
    var gate := ResolveGate(store(pod.namespace, podGroupName));
    if gate.Err? {
      return Status(Error, gate.error), 0;
    }
    if gate.value.Ungated? {
      return Status(Success, ""), 0;
    }
    var minAvailable, timeout := gate.value.minAvailable, gate.value.timeoutSeconds;
    var namespace := pod.namespace;

    var pods := ListPods(snapshot, namespace, podGroupName);
    var running := CountRunning(pods);
    var waitingCount := CountWaiting(waiting, namespace, podGroupName);

    var current := running + waitingCount + 1;
    if current < minAvailable {
      var msg := WaitMessage(pod.namespace, podGroupName, pod.name, minAvailable, running, waitingCount);
      return Status(Wait, msg), timeout;
    }
    AllowSiblings(waiting, namespace, podGroupName);
    return Status(Success, ""), 0;
  }

  // ---------------------------------------------------------------------
  // Properties of the decision

  /** Whether `Atoi` accepts the string. */
  predicate Parses(s: string) {
    WellFormed(s) && InInt64(SignedValue(s))
  }

  /** A pod without a group label, or with an empty one, is admitted at once;
      the store, the snapshot and the waiting pods play no part. */
  lemma UngroupedPodIsAdmitted(pod: Pod, store: ConfigStore, snapshot: seq<Pod>, waiting: seq<Pod>)
    requires PodGroupName !in pod.labels || pod.labels[PodGroupName] == ""
    ensures Decide(pod, store, snapshot, waiting) == Verdict(Status(Success, ""), 0, None)
  {
  }

  /** A group without a config map is an error with a fixed message. */
  lemma MissingConfigMapIsError(pod: Pod, store: ConfigStore, snapshot: seq<Pod>, waiting: seq<Pod>, g: string)
    requires GroupOf(pod) == Some(g) && store(pod.namespace, g) == NotFound
    ensures Decide(pod, store, snapshot, waiting) == Verdict(Status(Error, ConfigMapNotFoundMessage), 0, None)
  {
  }

  /** Any other lookup failure is an error carrying the failure's text. */
  lemma LookupFailureIsError(pod: Pod, store: ConfigStore, snapshot: seq<Pod>, waiting: seq<Pod>, g: string, msg: string)
    requires GroupOf(pod) == Some(g) && store(pod.namespace, g) == LookupFailed(msg)
    ensures Decide(pod, store, snapshot, waiting) == Verdict(Status(Error, msg), 0, None)
  {
  }

  /** A config map without `minAvailable` is an error. */
  lemma MinAvailableMissingIsError(pod: Pod, store: ConfigStore, snapshot: seq<Pod>, waiting: seq<Pod>, g: string, data: map<string, string>)
    requires GroupOf(pod) == Some(g) && store(pod.namespace, g) == Found(data)
    requires MinAvailableKey !in data
    ensures Decide(pod, store, snapshot, waiting) == Verdict(Status(Error, MinAvailableMissingMessage), 0, None)
  {
  }

  /** A `minAvailable` that `Atoi` rejects (not a sign and digits, or out of
      the 64-bit range) is an error reporting `Atoi`'s error text. */
  lemma MinAvailableMalformedIsError(pod: Pod, store: ConfigStore, snapshot: seq<Pod>, waiting: seq<Pod>, g: string, data: map<string, string>)
    requires GroupOf(pod) == Some(g) && store(pod.namespace, g) == Found(data)
    requires MinAvailableKey in data && !Parses(data[MinAvailableKey])
    ensures Atoi(data[MinAvailableKey]).Err?
    ensures Decide(pod, store, snapshot, waiting)
            == Verdict(Status(Error, Atoi(data[MinAvailableKey]).error.Error()), 0, None)
  {
    AtoiAccepts(data[MinAvailableKey]);
  }

  /** A quorum of at most one admits the pod at once, whatever
      `scheduleTimeoutSeconds` holds, even a malformed value. */
  lemma SmallQuorumIsAdmitted(pod: Pod, store: ConfigStore, snapshot: seq<Pod>, waiting: seq<Pod>, g: string, data: map<string, string>)
    requires GroupOf(pod) == Some(g) && store(pod.namespace, g) == Found(data)
    requires MinAvailableKey in data && Parses(data[MinAvailableKey]) && SignedValue(data[MinAvailableKey]) <= 1
    ensures Decide(pod, store, snapshot, waiting) == Verdict(Status(Success, ""), 0, None)
  {
    AtoiAccepts(data[MinAvailableKey]);
  }

  /** With a quorum above one, the timeout is ten seconds when
      `scheduleTimeoutSeconds` is absent, an error when it does not parse, and
      the parsed value as it is, negative values included, otherwise. */
  lemma QuorumGateTimeout(data: map<string, string>)
    requires MinAvailableKey in data && Parses(data[MinAvailableKey]) && SignedValue(data[MinAvailableKey]) > 1
    ensures ScheduleTimeoutKey in data ==> (Atoi(data[ScheduleTimeoutKey]).Err? <==> !Parses(data[ScheduleTimeoutKey]))
    ensures var m := SignedValue(data[MinAvailableKey]);
      ResolveGate(Found(data))
      == if ScheduleTimeoutKey !in data then Ok(Quorum(m, DefaultScheduleTimeoutSeconds))
         else if Parses(data[ScheduleTimeoutKey]) then Ok(Quorum(m, SignedValue(data[ScheduleTimeoutKey])))
         else Err(Atoi(data[ScheduleTimeoutKey]).error.Error())
  {
    AtoiAccepts(data[MinAvailableKey]);
    if ScheduleTimeoutKey in data {
      AtoiAccepts(data[ScheduleTimeoutKey]);
    }
  }

  /** With a quorum above one, a `scheduleTimeoutSeconds` that `Atoi` rejects
      is an error reporting `Atoi`'s error text, with timeout 0 and no waiting
      pod released. */
  lemma TimeoutMalformedIsError(pod: Pod, store: ConfigStore, snapshot: seq<Pod>, waiting: seq<Pod>, g: string, data: map<string, string>)
    requires GroupOf(pod) == Some(g) && store(pod.namespace, g) == Found(data)
    requires MinAvailableKey in data && Parses(data[MinAvailableKey]) && SignedValue(data[MinAvailableKey]) > 1
    requires ScheduleTimeoutKey in data && !Parses(data[ScheduleTimeoutKey])
    ensures Atoi(data[ScheduleTimeoutKey]).Err?
    ensures Decide(pod, store, snapshot, waiting)
            == Verdict(Status(Error, Atoi(data[ScheduleTimeoutKey]).error.Error()), 0, None)
  {
    QuorumGateTimeout(data);
  }

  /** `running` counts exactly the snapshot's pods of namespace `ns` that carry
      group label `g` and are running. */
  lemma RunningCountIsExact(snapshot: seq<Pod>, ns: string, g: string)
    ensures RunningCount(snapshot, ns, g)
            == |set i | 0 <= i < |snapshot| && Listed(snapshot[i], ns, g) && snapshot[i].phase == Running|
  {
    CountFilter(snapshot, ListedIn(ns, g), IsRunning);
    CountIsCardinality(snapshot, Both(ListedIn(ns, g), IsRunning));
    assert Positions(snapshot, Both(ListedIn(ns, g), IsRunning))
           == set i | 0 <= i < |snapshot| && Listed(snapshot[i], ns, g) && snapshot[i].phase == Running;
  }

  /** `waiting` counts exactly the waiting pods of namespace `ns` whose group
      label is `g`. */
  lemma WaitingCountIsExact(waiting: seq<Pod>, ns: string, g: string)
    ensures WaitingCount(waiting, ns, g)
            == |set i | 0 <= i < |waiting| && waiting[i].namespace == ns && LabelValue(waiting[i], PodGroupName) == g|
  {
    CountIsCardinality(waiting, SiblingIn(ns, g));
    assert Positions(waiting, SiblingIn(ns, g))
           == set i | 0 <= i < |waiting| && waiting[i].namespace == ns && LabelValue(waiting[i], PodGroupName) == g;
  }

  /** With a quorum gate, the pod waits exactly when the running and waiting
      members and the pod itself fall short of `minAvailable`; it then waits
      for the configured timeout, and otherwise it is admitted and its group
      is released. */
  lemma QuorumDecision(pod: Pod, store: ConfigStore, snapshot: seq<Pod>, waiting: seq<Pod>, g: string, m: int, t: int)
    requires GroupOf(pod) == Some(g) && ResolveGate(store(pod.namespace, g)) == Ok(Quorum(m, t))
    ensures var running := RunningCount(snapshot, pod.namespace, g);
            var waitingCount := WaitingCount(waiting, pod.namespace, g);
            Decide(pod, store, snapshot, waiting)
            == if running + waitingCount + 1 < m
               then Verdict(Status(Wait, WaitMessage(pod.namespace, g, pod.name, m, running, waitingCount)), t, None)
               else Verdict(Status(Success, ""), 0, Some(g))
  {
  }

  /** More running or waiting pods never turn an admission into a wait. */
  lemma AdmissionIsMonotone(pod: Pod, store: ConfigStore, snapshot: seq<Pod>, waiting: seq<Pod>, moreRunning: seq<Pod>, moreWaiting: seq<Pod>)
    requires Decide(pod, store, snapshot, waiting).status.code == Success
    ensures Decide(pod, store, snapshot + moreRunning, waiting + moreWaiting).status.code == Success
  {
    if GroupOf(pod).Some? {
      var ns, g := pod.namespace, GroupOf(pod).value;
      CountFilter(snapshot, ListedIn(ns, g), IsRunning);
      CountFilter(snapshot + moreRunning, ListedIn(ns, g), IsRunning);
      CountAppend(snapshot, moreRunning, Both(ListedIn(ns, g), IsRunning));
      CountAppend(waiting, moreWaiting, SiblingIn(ns, g));
    }
  }
}
