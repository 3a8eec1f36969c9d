# Gang admission gate of the `sample` scheduler plugin

This project models the permit stage of the `sample` plugin for the
Kubernetes scheduling framework. The plugin gives gang (co-)scheduling. A pod
names its group with the label `pod-group.scheduling.bdap.com/name`. The
group's config map, in the pod's namespace, holds `minAvailable` (the quorum)
and, optionally, `scheduleTimeoutSeconds`. `Sample.Permit` decides for one pod:

- `Success`, timeout 0: the pod may be bound now;
- `Wait`, with a timeout: the pod must wait for its siblings;
- `Error`, timeout 0: the group's configuration is missing or malformed.

When a pod completes its group's quorum, the plugin calls `Allow` on every
waiting sibling.

Modules:

- `Wrappers` (wrappers.dfy): `Option` and `Result`.
- `Strconv` (strconv.dfy): Go's `strconv.Atoi` for a 64-bit `int`. This
  includes the rule that a digit prefix above 2^64-1 is a range error even
  when a later character is not a digit. The module also has `Itoa`, which
  `%d` produces, and `Quote` with `NumError.Error()`, which produce the text
  of a parse error. `Atoi` and `Itoa` are proved against independent
  definitions: `Atoi` accepts exactly an optional sign followed by digits
  whose value fits in 64 bits, `Atoi` inverts `Itoa`, and the kind of error
  `Atoi` reports is characterised by the run of leading digits. `Quote` is
  proved only on input that needs no escaping, and the full text of
  `NumError.Error()` only for the input "abc".
- `Pods` (pods.dfy): pods as values, with namespace, labels and phase. The
  module holds the pod lister's label selection, counting and filtering over
  sequences (each proved equal to a count of positions), and `WaitingPod`. A
  `WaitingPod` is a class whose `Allow` records the plugins that allowed it.
- `Sample` (sample.dfy) has two parts. The pure function `Decide` specifies
  the decision. The method `Permit` follows the Go code: early returns for
  the label and configuration checks, a loop that counts running pods, a loop
  that counts waiting siblings, and a loop that calls `Allow`. `Permit` is
  proved to return what `Decide` says. It is also proved to allow exactly the
  waiting siblings that `Decide` releases, each once. The lemmas state the
  properties of `Decide`.
- `SampleFixtures` (fixtures.dfy): the scenarios of the repository's permit
  test, with the fake listers' data. There is also a client method in which
  three pods of a quorum-3 group arrive in turn. The third pod allows the
  first two.

Collaborators are inputs:

- The config-map lister is a total function from (namespace, name) to
  `NotFound`, `LookupFailed(text)` or `Found(data)`.
- The pod lister is a snapshot sequence of pods, filtered by namespace and
  label selector.
- The framework's waiting pods are a sequence of distinct `WaitingPod`
  objects. The framework keys them by UID.

Where the system's design description and the code differ, the model follows
the code:

- The description says an absent `minAvailable` means "no grouping
  constraint". The code returns `Error` with "minAvailable field not found in
  podgroup configmap" (pkg/plugins/sample/sample.go:65-68).
- The description says negative quorum or timeout values are invalid. The
  code accepts anything `strconv.Atoi` accepts, including a leading `+` or
  `-`. A negative timeout is returned as it is with `Wait`.
- The description has the gate register the waiting pod and remove released
  pods from the registry. In the code the framework does both; the plugin
  only counts waiting pods and calls `Allow`.

The repository's test config maps key the quorum by a Go constant
`minAvailable`. The fixtures take its value to be the key "minAvailable" that
pkg/plugins/sample/sample.go:65 reads. The test expects `Wait` for the pg1
pods (pkg/plugins/sample/sample_permit_test.go:90), and with any other key
pkg/plugins/sample/sample.go:66-67 would return `Error` instead. The fake pod lister ignores the
namespace it is given. The fixtures therefore place its pods in the test
pods' namespace, with the group label its selector asks for.

## Model

| member | source | states |
|---|---|---|
| `Sample.Decide` | pkg/plugins/sample/sample.go:51-123 | every verdict other than `Wait` has timeout 0; only `Success` releases, and only the pod's own group; `Error` arises only from a labelled pod whose configuration fails to resolve |
| `Sample.Permit` | pkg/plugins/sample/sample.go:51-123 | returns the status and timeout of `Decide`; each waiting pod is allowed once, by "sample", exactly when `Decide` releases its namespace and group; every other waiting pod is unchanged |
| `Sample.CountRunning` | pkg/plugins/sample/sample.go:88-95 | the loop's counter equals the number of listed pods in phase `Running` |
| `Sample.CountWaiting` | pkg/plugins/sample/sample.go:97-102 | the callback's counter equals the number of waiting pods whose group label (a missing label counting as empty) equals the group and whose namespace equals the pod's |
| `Sample.AllowSiblings` | pkg/plugins/sample/sample.go:115-120 | every waiting pod of the same namespace and group gets exactly one `Allow("sample")`; all others are left as they were |
| `Sample.UngroupedPodIsAdmitted` | pkg/plugins/sample/sample.go:52-55 | a pod with no group label, or an empty one, gets `Success` with timeout 0 and releases nothing, whatever the store, snapshot and waiting pods are |
| `Sample.MissingConfigMapIsError` | pkg/plugins/sample/sample.go:56-60 | a missing config map gives `Error` "podgroup configmap not found, please create configmap first", timeout 0, nothing released |
| `Sample.LookupFailureIsError` | pkg/plugins/sample/sample.go:61-63 | any other lookup failure gives `Error` carrying that failure's text, timeout 0, nothing released |
| `Sample.MinAvailableMissingIsError` | pkg/plugins/sample/sample.go:65-68 | a config map without `minAvailable` gives `Error` "minAvailable field not found in podgroup configmap", timeout 0 |
| `Sample.MinAvailableMalformedIsError` | pkg/plugins/sample/sample.go:69-72 | a `minAvailable` that is not a sign and digits, or is out of the 64-bit range, makes `Atoi` fail, and the verdict is `Error` with `Atoi`'s error text, timeout 0 |
| `Sample.SmallQuorumIsAdmitted` | pkg/plugins/sample/sample.go:73-75 | a parsed `minAvailable` of at most 1 gives `Success`, timeout 0, nothing released, whatever `scheduleTimeoutSeconds` holds (a malformed value included) |
| `Sample.QuorumGateTimeout` | pkg/plugins/sample/sample.go:77-84 | with `minAvailable` above 1, the timeout is 10 when the key is absent; an unparseable value gives an error with `Atoi`'s text; any parseable value is used as it is, negative ones included |
| `Sample.TimeoutMalformedIsError` | pkg/plugins/sample/sample.go:79-83 | with `minAvailable` above 1, a `scheduleTimeoutSeconds` that `Atoi` rejects gives `Error` with `Atoi`'s error text, timeout 0, nothing released |
| `Sample.RunningCountIsExact` | pkg/plugins/sample/sample.go:88-95 | `running` is the number of snapshot positions whose pod is in the namespace, carries the group label with the group's value, and is `Running` |
| `Sample.WaitingCountIsExact` | pkg/plugins/sample/sample.go:97-102 | `waiting` is the number of waiting positions whose pod is in the namespace and whose group label equals the group |
| `Sample.QuorumDecision` | pkg/plugins/sample/sample.go:104-122 | with a quorum gate: `Wait` with the configured timeout and a message naming namespace, group, pod, minAvailable, running and waiting exactly when running + waiting + 1 < minAvailable; otherwise `Success`, timeout 0, group released |
| `Sample.AdmissionIsMonotone` | pkg/plugins/sample/sample.go:104-106 | adding running or waiting pods never turns a `Success` into a `Wait` |
| `Pods.SelectorAgreesWithSibling` | pkg/plugins/sample/sample.go:89-99 | for a non-empty group the lister's selector and the waiting-pod label comparison select the same pods |
| `Pods.Filter` | pkg/plugins/sample/sample.go:90 | the listed pods are exactly the snapshot pods that satisfy the selection, never more than the snapshot |
| `Pods.CountIsCardinality` | pkg/plugins/sample/sample.go:91-95 | the count equals the number of positions whose element satisfies the predicate |
| `Pods.CountFilter` | pkg/plugins/sample/sample.go:90-95 | counting running pods among the listed pods equals counting pods that are listed and running in the snapshot |
| `Pods.WaitingPod.Allow` | pkg/plugins/sample/sample.go:118 | `Allow` appends the calling plugin's name to the pod's record of allows |
| `Strconv.Atoi` | pkg/plugins/sample/sample.go:69 | an error names `Atoi` and carries the whole input; a result fits in a 64-bit int |
| `Strconv.ScanUint64Value` | pkg/plugins/sample/sample.go:80 | the digit loop yields a value exactly for digit strings whose value is at most 2^64-1, and that value |
| `Strconv.AtoiAccepts` | pkg/plugins/sample/sample.go:69 | `Atoi` succeeds exactly on an optional `+`/`-` followed by one or more digits whose signed value fits in 64 bits, and returns that value |
| `Strconv.LeadingDigits` | pkg/plugins/sample/sample.go:69 | the longest all-digit prefix of the input: the next character, if any, is not a digit, and an all-digit input is its own run |
| `Strconv.ScanUint64Overflow` | pkg/plugins/sample/sample.go:69 | the digit loop reports overflow exactly when the leading run of digits exceeds 2^64-1 |
| `Strconv.AtoiErrorKind` | pkg/plugins/sample/sample.go:69-72 | `Atoi` reports "value out of range" exactly when the digits after the sign overflow 64 unsigned bits or a well-formed value is outside the 64-bit range, and "invalid syntax" exactly when the input is not well formed and its leading digits do not overflow |
| `Strconv.AtoiItoa` | pkg/plugins/sample/sample.go:80 | `Atoi(Itoa(n)) == n` for every 64-bit `n`, negative ones included |
| `Strconv.AtoiPlusSign` | pkg/plugins/sample/sample.go:69 | a leading `+` is accepted: `Atoi("+" + Itoa(n)) == n` for non-negative 64-bit `n` |
| `Strconv.FormatNat` | pkg/plugins/sample/sample.go:107-108 | `%d` of a count is a non-empty digit string without leading zeros |
| `Strconv.FormatNatValue` | pkg/plugins/sample/sample.go:107-108 | the rendered digits read back as the number |
| `Strconv.QuoteVerbatim` | pkg/plugins/sample/sample.go:71 | in `Atoi`'s error text, an input without quotes, backslashes or control characters appears as it is between double quotes |
| `SampleFixtures.QuorumOfThree` | pkg/plugins/sample/cluster_status_test.go:80-91 | the test config map (`minAvailable` "3") resolves to a quorum of 3 with the default timeout of 10 seconds |
| `SampleFixtures.SignedConfigValues` | pkg/plugins/sample/sample.go:69-84 | `minAvailable` "+3" with `scheduleTimeoutSeconds` "-5" resolves to quorum 3 and timeout -5 |
| `SampleFixtures.AtoiRejectsLetters` | pkg/plugins/sample/sample.go:69 | `Atoi("abc")` fails with a syntax error |
| `SampleFixtures.SyntaxErrorText` | pkg/plugins/sample/sample.go:71 | that error's text is "strconv.Atoi: parsing \"abc\": invalid syntax" |
| `SampleFixtures.NonNumericQuorum` | pkg/plugins/sample/sample.go:69-72 | `minAvailable` "abc" gives `Error` "strconv.Atoi: parsing \"abc\": invalid syntax", timeout 0 |
| `SampleFixtures.FakeListingPg1` | pkg/plugins/sample/cluster_status_test.go:41-44 | the lister returns pod pg1-1 for pg1 |
| `SampleFixtures.FakeListingPg2` | pkg/plugins/sample/cluster_status_test.go:46-51 | the lister returns pods pg2-1, pg2-2 and pg2-3 for pg2 |
| `SampleFixtures.FakeRunningCounts` | pkg/plugins/sample/cluster_status_test.go:38-54 | the fake lister's data gives 0 running pods for pg1 and 3 for pg2 |
| `SampleFixtures.UngroupedPodsAreAdmitted` | pkg/plugins/sample/sample_permit_test.go:73-81 | three pods without a group are each admitted |
| `SampleFixtures.FirstPg1PodWaits` | pkg/plugins/sample/sample_permit_test.go:115-117 | the first pg1 pod, with no running or waiting member, gets `Wait` |
| `SampleFixtures.SecondPg1PodWaits` | pkg/plugins/sample/sample_permit_test.go:118-120 | the second pg1 pod, with the first one waiting, still gets `Wait` |
| `SampleFixtures.Pg2PodPasses` | pkg/plugins/sample/sample_permit_test.go:121-123 | the pg2 pod, with three running members, gets `Success` and releases neither waiting pg1 pod |

## Left out

- `New`, `Name` and `Filter` (pkg/plugins/sample/sample.go:33-49) are framework wiring, a constant and an unconditional `Success`. The model keeps only the plugin name "sample", as the constant `Sample.Name`.
- The queue-sort comparator `Less`: its implementation is not part of this model. sample_queuesort_test.go calls it, but the code it tests is not available.
- cmd/scheduler/main.go only wires the plugin into the scheduler command.
- The timeout is an integer number of seconds. The conversion `time.Duration(scheduleTimeoutSeconds) * time.Second` is not modelled. That conversion wraps for values above about 9.2e9 seconds.
- The pod lister's error, which the code ignores (pkg/plugins/sample/sample.go:90), is not modelled. The lister always returns its filtered snapshot.
- The framework owns three behaviours that are not modelled: adding a pod to the waiting set after `Wait`, the timer that rejects it at the timeout, and its removal once allowed. The waiting pods are a snapshot sequence of objects.
- The code reads the waiting set twice (pkg/plugins/sample/sample.go:98 and 115). Concurrent changes between the two reads are not modelled. Both passes see the same sequence.
- klog logging is left out. So are the context, cycle state and node name arguments, which `Permit` does not use.
- `Strconv.Quote` copies every non-ASCII character unchanged. Go escapes the non-printable ones as `\u`/`\U`.
- Go strings are byte strings. The model uses strings of characters.
- `Strconv.Atoi` models only a 64-bit `int`.
