/** The snapshot reported for a container, read off its Service's status. */
module ServiceStatus {
  import opened Prelude
  import opened Objects

  datatype ContainerStatus = ContainerStatus(
    status: string,
    readyReplicas: nat,
    endpointURL: string,
    activeRevision: string,
    revisions: seq<string>)

  function StatusWord(ready: Option<string>): string {
    if ready == Some("True") then "running" else if ready == Some("False") then "degraded" else "deploying"
  }

  /** Each nonempty name where it first occurs, in order. */
  function FirstOccurrences(names: seq<string>): seq<string> {
    if names == [] then []
    else
      var init, last := names[..|names| - 1], names[|names| - 1];
      FirstOccurrences(init) + (if last == "" || last in init then [] else [last])
  }

  function Derive(s: Status): ContainerStatus {
    ContainerStatus(
      StatusWord(s.ready),
      if s.ready == Some("True") then 1 else 0,
      if s.url.Some? then s.url.value else "",
      s.latestReady,
      FirstOccurrences(s.trafficRevisions))
  }

  lemma NoNames()
    ensures FirstOccurrences([]) == []
  {
  }

  lemma OneMoreStep(names: seq<string>, i: nat)
    requires i < |names|
    ensures FirstOccurrences(names[..i + 1]) ==
            FirstOccurrences(names[..i]) + (if names[i] == "" || names[i] in names[..i] then [] else [names[i]])
  {
    assert names[..i + 1][..i] == names[..i];
  }

  /** v occurs at i and nowhere earlier. */
  ghost predicate FirstAt(names: seq<string>, v: string, i: nat) {
    i < |names| && names[i] == v && v !in names[..i]
  }

  /** `at` lists, in increasing order, where the elements of r first occur in names; r misses no nonempty name. */
  ghost predicate IsFirstOccurrences(names: seq<string>, r: seq<string>, at: seq<nat>) {
    && |at| == |r|
    && (forall j :: 0 <= j < |r| ==> r[j] != "" && FirstAt(names, r[j], at[j]))
    && (forall i, j :: 0 <= i < j < |at| ==> at[i] < at[j])
    && (forall v :: v in names && v != "" ==> v in r)
  }

  lemma {:induction false} RevisionsAreFirstOccurrences(names: seq<string>) returns (at: seq<nat>)
    ensures IsFirstOccurrences(names, FirstOccurrences(names), at)
  {
    hide IsFirstOccurrences;
    if names == [] {
      at := [];
      assert names == [] && FirstOccurrences(names) == [];
      NoNamesFound();
    } else {
      var init, last := names[..|names| - 1], names[|names| - 1];
      assert names == init + [last];
      at := RevisionsAreFirstOccurrences(init);
      at := OneMoreName(init, FirstOccurrences(init), at, last);
      assert FirstOccurrences(names)
          == if last == "" || last in init then FirstOccurrences(init) else FirstOccurrences(init) + [last];
    }
  }

  lemma NoNamesFound()
    ensures IsFirstOccurrences([], [], [])
  {
  }

  lemma OneMoreName(names: seq<string>, r: seq<string>, at: seq<nat>, last: string) returns (at': seq<nat>)
    requires IsFirstOccurrences(names, r, at)
    ensures IsFirstOccurrences(names + [last], if last == "" || last in names then r else r + [last], at')
  {
    forall v, i: nat | FirstAt(names, v, i)
      ensures FirstAt(names + [last], v, i)
    {
      assert (names + [last])[..i] == names[..i];
    }
    if last == "" || last in names {
      at' := at;
    } else {
      at' := at + [|names|];
      assert (names + [last])[..|names|] == names;
      assert FirstAt(names + [last], last, |names|);
    }
  }

  /** The description has one solution, which lists no name twice: it determines the report. */
  lemma {:induction false} FirstOccurrencesUnique(names: seq<string>, r: seq<string>, at: seq<nat>, r': seq<string>,
                                                  at': seq<nat>)
    requires IsFirstOccurrences(names, r, at) && IsFirstOccurrences(names, r', at')
    ensures r == r'
    ensures forall i, j :: 0 <= i < j < |r| ==> r[i] != r[j]
  {
    SamePrefix(names, r, at, r', at', |r|);
    SamePrefix(names, r', at', r, at, |r'|);
  }

  lemma {:induction false} SamePrefix(names: seq<string>, r: seq<string>, at: seq<nat>, r': seq<string>, at': seq<nat>,
                                      n: nat)
    requires IsFirstOccurrences(names, r, at) && IsFirstOccurrences(names, r', at')
    requires n <= |r|
    ensures n <= |r'|
    ensures forall i :: 0 <= i < n ==> r[i] == r'[i] && at[i] == at'[i]
  {
    if n > 0 {
      SamePrefix(names, r, at, r', at', n - 1);
      var v := r[n - 1];
      assert v in names;
      var j :| 0 <= j < |r'| && r'[j] == v;
      SameFirst(names, v, at[n - 1], at'[j]);
      assert j >= n - 1;
      var u := r'[n - 1];
      assert u in names;
      var i :| 0 <= i < |r| && r[i] == u;
      SameFirst(names, u, at[i], at'[n - 1]);
      assert i >= n - 1;
    }
  }

  lemma SameFirst(names: seq<string>, v: string, i: nat, j: nat)
    requires FirstAt(names, v, i) && FirstAt(names, v, j)
    ensures i == j
  {
  }

  // ----- The snapshot -----

  /** What is read off a status, field by field. */
  ghost predicate Snapshot(s: Status, out: ContainerStatus) {
    && (out.status == "running" <==> s.ready == Some("True"))
    && (out.status == "degraded" <==> s.ready == Some("False"))
    && (out.status == "deploying" <==> s.ready != Some("True") && s.ready != Some("False"))
    && out.readyReplicas == (if s.ready == Some("True") then 1 else 0)
    && out.endpointURL == (if s.url.Some? then s.url.value else "")
    && out.activeRevision == s.latestReady
    && exists at :: IsFirstOccurrences(s.trafficRevisions, out.revisions, at)
  }

  lemma DeriveIsSnapshot(s: Status)
    ensures Snapshot(s, Derive(s))
  {
    hide FirstOccurrences, IsFirstOccurrences;
    var at := RevisionsAreFirstOccurrences(s.trafficRevisions);
    assert |"running"| == 7 && |"degraded"| == 8 && |"deploying"| == 9;
  }

  method DeriveContainerStatus(s: Status) returns (out: ContainerStatus)
    ensures out == Derive(s) && Snapshot(s, out)
  {
    hide FirstOccurrences, Snapshot;
    DeriveIsSnapshot(s);
    assert FirstOccurrences([]) == [] by { NoNames(); }
    out := ContainerStatus("deploying", 0, "", "", []);
    if s.url.Some? {
      out := out.(endpointURL := s.url.value);
    }
    out := out.(activeRevision := s.latestReady);
    if s.ready.Some? {
      if s.ready.value == "True" {
        out := out.(status := "running", readyReplicas := 1);
      } else if s.ready.value == "False" {
        out := out.(status := "degraded");
      } else {
        out := out.(status := "deploying");
      }
    }
    ghost var before := out;
    var seen: set<string> := {};
    var names := s.trafficRevisions;
    for i := 0 to |names|
      invariant out == before.(revisions := FirstOccurrences(names[..i]))
      invariant seen == set n | n in names[..i] && n != ""
    {
      OneMoreStep(names, i);
      if names[i] == "" || names[i] in seen {
        continue;
      }
      seen := seen + {names[i]};
      out := out.(revisions := out.revisions + [names[i]]);
    }
    assert names[..|names|] == names;
  }
}
