/** The permit tests of the repository, stated over the model. The fake
    config-map lister knows groups `pg1` and `pg2`, each with `minAvailable`
    "3"; the fake pod lister has one non-running pod for `pg1` and three
    running pods for `pg2`. The fake ignores the namespace it is scoped to,
    so the snapshot here places those pods in the test pods' namespace (the
    empty one) with the group label the selector asks for. */
module SampleFixtures {
  import opened Wrappers
  import opened Strconv
  import opened Pods
  import opened Sample

  function GroupPod(name: string, group: string): Pod {
    Pod(name, "", map[PodGroupName := group], Unset)
  }

  function PlainPod(name: string): Pod {
    Pod(name, "", map[], Unset)
  }

  function FakeStore(): ConfigStore {
    (ns: string, name: string) =>
      if name == "pg1" || name == "pg2" then Found(map[MinAvailableKey := "3"]) else NotFound
  }

  function FakeSnapshot(): seq<Pod> {
    [ GroupPod("pg1-1", "pg1"),
      Pod("pg2-1", "", map[PodGroupName := "pg2"], Running),
      Pod("pg2-2", "", map[PodGroupName := "pg2"], Running),
      Pod("pg2-3", "", map[PodGroupName := "pg2"], Running) ]
  }

  /** "3" configures a quorum of three with the default timeout. */
  lemma QuorumOfThree()
    ensures ResolveGate(Found(map[MinAvailableKey := "3"])) == Ok(Quorum(3, DefaultScheduleTimeoutSeconds))
  {
    AtoiItoa(3);
    assert Itoa(3) == "3";
  }

  /** Sign prefixes are accepted: "+3" is a quorum of three, and a timeout of
      "-5" is passed on as it is. */
  lemma SignedConfigValues()
    ensures ResolveGate(Found(map[MinAvailableKey := "+3", ScheduleTimeoutKey := "-5"])) == Ok(Quorum(3, -5))
  {
    AtoiPlusSign(3);
    assert "+" + Itoa(3) == "+3";
    AtoiItoa(-5);
    assert Itoa(-5) == "-5";
  }

  /** `Atoi("abc")` is a syntax error. */
  lemma AtoiRejectsLetters()
    ensures Atoi("abc") == Err(NumError("Atoi", "abc", ErrSyntax))
  {
    var abc := "abc";
    assert !HasSign(abc) && !IsDigit(abc[0]);
    assert ScanUint64(abc, 0) == Syntax;
  }

  /** The text of that error, as Go renders it. */
  lemma SyntaxErrorText()
    ensures NumError("Atoi", "abc", ErrSyntax).Error() == "strconv.Atoi: parsing \"abc\": invalid syntax"
  {
    var abc := "abc";
    assert forall i :: 0 <= i < |abc| ==> QuotesVerbatim(abc[i]);
    QuoteVerbatim(abc);
    var quoted := Quote(abc);
    assert quoted == "\"abc\"";
  }

  /** "abc" is not a quorum: the pod is rejected with Atoi's syntax error. */
  lemma NonNumericQuorum(pod: Pod)
    requires GroupOf(pod) == Some("pg9")
    ensures Decide(pod, (ns: string, name: string) => Found(map[MinAvailableKey := "abc"]), [], [])
            == Verdict(Status(Error, "strconv.Atoi: parsing \"abc\": invalid syntax"), 0, None)
  {
    AtoiRejectsLetters();
    SyntaxErrorText();
    var data := map[MinAvailableKey := "abc"];
    assert data[MinAvailableKey] == "abc";
    var store := (ns: string, name: string) => Found(data);
    assert store(pod.namespace, "pg9") == Found(data);
  }

  /** Test "common pod not belongs any podGroup": pods without a group label
      are admitted. */
  lemma UngroupedPodsAreAdmitted()
    ensures Decide(PlainPod("pod1"), FakeStore(), FakeSnapshot(), []).status.code == Success
    ensures Decide(PlainPod("pod2"), FakeStore(), FakeSnapshot(), []).status.code == Success
    ensures Decide(PlainPod("pod3"), FakeStore(), FakeSnapshot(), []).status.code == Success
  {
  }

  /** The prefixes of the fake snapshot, as the recursive definitions of
      `Filter` and `Count` take them apart. */
  lemma FakeSnapshotPrefixes()
    ensures var s := FakeSnapshot();
            s[..3] == [s[0], s[1], s[2]] && s[..3][..2] == [s[0], s[1]]
            && s[..3][..2][..1] == [s[0]] && s[..3][..2][..1][..0] == []
  {
  }

  /** The fake pod lister returns pod pg1-1 for pg1. */
  lemma FakeListingPg1()
    ensures ListPods(FakeSnapshot(), "", "pg1") == [FakeSnapshot()[0]]
  {
    var s, pg1 := FakeSnapshot(), ListedIn("", "pg1");
    FakeSnapshotPrefixes();
    assert pg1(s[0]) && !pg1(s[1]) && !pg1(s[2]) && !pg1(s[3]);
    assert Filter(s[..3][..2][..1], pg1) == [s[0]];
    assert Filter(s[..3][..2], pg1) == [s[0]];
    assert Filter(s[..3], pg1) == [s[0]];
  }

  /** The fake pod lister returns pods pg2-1, pg2-2 and pg2-3 for pg2. */
  lemma FakeListingPg2()
    ensures ListPods(FakeSnapshot(), "", "pg2") == FakeSnapshot()[1..]
  {
    var s, pg2 := FakeSnapshot(), ListedIn("", "pg2");
    FakeSnapshotPrefixes();
    assert !pg2(s[0]) && pg2(s[1]) && pg2(s[2]) && pg2(s[3]);
    assert Filter(s[..3][..2][..1], pg2) == [];
    assert Filter(s[..3][..2], pg2) == [s[1]];
    assert Filter(s[..3], pg2) == [s[1], s[2]];
    assert s[1..] == [s[1], s[2], s[3]];
  }

  /** The fake pod lister's running members: none for pg1, three for pg2. */
  lemma FakeRunningCounts()
    ensures RunningCount(FakeSnapshot(), "", "pg1") == 0
    ensures RunningCount(FakeSnapshot(), "", "pg2") == 3
  {
    var s := FakeSnapshot();
    FakeListingPg1();
    assert [s[0]][..0] == [];
    assert Count([s[0]], IsRunning) == 0;
    FakeListingPg2();
    var running := s[1..];
    assert running[..2][..1][..0] == [];
    assert running[..2][..1] == [s[1]];
    assert running[..2] == [s[1], s[2]];
    assert IsRunning(s[1]) && IsRunning(s[2]) && IsRunning(s[3]);
    assert Count(running[..2][..1], IsRunning) == 1;
    assert Count(running[..2], IsRunning) == 2;
  }

  /** Test "pods belongs podGroup", first call: pg1 has no running member
      and nobody waits, so its first pod waits. */
  lemma FirstPg1PodWaits()
    ensures Decide(GroupPod("pod1", "pg1"), FakeStore(), FakeSnapshot(), []).status.code == Wait
  {
    QuorumOfThree();
    FakeRunningCounts();
    var pod1 := GroupPod("pod1", "pg1");
    assert GroupOf(pod1) == Some("pg1");
    assert FakeStore()("", "pg1") == Found(map[MinAvailableKey := "3"]);
    QuorumDecision(pod1, FakeStore(), FakeSnapshot(), [], "pg1", 3, DefaultScheduleTimeoutSeconds);
  }

  /** Second call: the first pg1 pod is waiting, which still leaves the group
      one short of three. */
  lemma SecondPg1PodWaits()
    ensures Decide(GroupPod("pod2", "pg1"), FakeStore(), FakeSnapshot(), [GroupPod("pod1", "pg1")]).status.code == Wait
  {
    QuorumOfThree();
    FakeRunningCounts();
    var pod1, pod2 := GroupPod("pod1", "pg1"), GroupPod("pod2", "pg1");
    assert GroupOf(pod2) == Some("pg1");
    assert FakeStore()("", "pg1") == Found(map[MinAvailableKey := "3"]);
    assert Sibling(pod1, "", "pg1");
    assert [pod1][..0] == [];
    assert WaitingCount([pod1], "", "pg1") == 1;
    QuorumDecision(pod2, FakeStore(), FakeSnapshot(), [pod1], "pg1", 3, DefaultScheduleTimeoutSeconds);
  }

  /** Third call: pg2 has three running members, so its pod is admitted, and
      neither waiting pg1 pod is released by it. */
  lemma Pg2PodPasses()
    ensures var v := Decide(GroupPod("pod3", "pg2"), FakeStore(), FakeSnapshot(),
                            [GroupPod("pod1", "pg1"), GroupPod("pod2", "pg1")]);
            v.status.code == Success && v.released == Some("pg2")
            && !Releases(v, "", GroupPod("pod1", "pg1")) && !Releases(v, "", GroupPod("pod2", "pg1"))
  {
    QuorumOfThree();
    FakeRunningCounts();
    var pod1, pod2, pod3 := GroupPod("pod1", "pg1"), GroupPod("pod2", "pg1"), GroupPod("pod3", "pg2");
    assert GroupOf(pod3) == Some("pg2");
    assert FakeStore()("", "pg2") == Found(map[MinAvailableKey := "3"]);
    QuorumDecision(pod3, FakeStore(), FakeSnapshot(), [pod1, pod2], "pg2", 3, DefaultScheduleTimeoutSeconds);
    assert !Sibling(pod1, "", "pg2") && !Sibling(pod2, "", "pg2");
  }

  /** A gang of three with nobody running: the first two pods wait, the third
      is admitted and allows both waiting pods, once each. */
  method GangOfThree()
  {
    QuorumOfThree();
    var p1, p2, p3 := GroupPod("a", "pg1"), GroupPod("b", "pg1"), GroupPod("c", "pg1");
    var status, timeout := Permit(p1, FakeStore(), [], []);
    assert status.code == Wait && timeout == DefaultScheduleTimeoutSeconds;
    var w1 := new WaitingPod(p1);
    assert PodsOf([w1]) == [p1];
    status, timeout := Permit(p2, FakeStore(), [], [w1]);
    assert WaitingCount([p1], "", "pg1") == 1;
    assert status.code == Wait && timeout == DefaultScheduleTimeoutSeconds;
    var w2 := new WaitingPod(p2);
    assert PodsOf([w1, w2]) == [p1, p2];
    assert [p1, p2][..1] == [p1];
    assert WaitingCount([p1, p2], "", "pg1") == 2;
    status, timeout := Permit(p3, FakeStore(), [], [w1, w2]);
    assert status.code == Success && timeout == 0;
    assert w1.allowedBy == [Name] && w2.allowedBy == [Name];
  }
}
