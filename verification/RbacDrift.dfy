/** The RBAC drift check: comparing two ClusterRoles as unordered collections of unordered collections. */
module RbacDrift {
  import opened Prelude
  import opened Ordering

  /** One item of a rule's mapping, such as ("verbs", ["get", "list"]). */
  type Entry = (string, seq<string>)

  /** A rule as its mapping's items, in the file's order. Keys of a mapping are distinct. */
  type Rule = seq<Entry>

  ghost predicate Mapping(r: Rule) {
    forall i, j :: 0 <= i < j < |r| ==> r[i].0 != r[j].0
  }

  ghost predicate Mappings(rs: seq<Rule>) {
    forall i :: 0 <= i < |rs| ==> Mapping(rs[i])
  }

  // ----- Python's orders -----

  function CharOrder(): Order<char> { (a: char, b: char) => a <= b }
  function StringOrder(): Order<string> { Lex(CharOrder()) }
  function ValuesOrder(): Order<seq<string>> { Lex(StringOrder()) }
  function EntryOrder(): Order<Entry> { Pairwise(StringOrder(), ValuesOrder()) }
  function RuleOrder(): Order<Rule> { Lex(EntryOrder()) }

  lemma OrdersTotal()
    ensures Total(StringOrder()) && Total(EntryOrder()) && Total(RuleOrder())
  {
    LexTotal(CharOrder());
    LexTotal(StringOrder());
    PairwiseTotal(StringOrder(), ValuesOrder());
    LexTotal(EntryOrder());
  }

  // ----- Normal forms -----

  function NormalEntry(e: Entry): Entry {
    (e.0, Sort(StringOrder(), e.1))
  }

  function NormalRule(r: Rule): Rule {
    Sort(EntryOrder(), Map(NormalEntry, r))
  }

  function NormalRules(rs: seq<Rule>): seq<Rule> {
    Sort(RuleOrder(), Map(NormalRule, rs))
  }

  method NormalizeRules(rules: seq<Rule>) returns (r: seq<Rule>)
    ensures r == NormalRules(rules)
  {
    hide Map, Sort;
    var normalized := [];
    for i := 0 to |rules|
      invariant normalized == Map(NormalRule, rules[..i])
    {
      MapExtend(NormalRule, rules, i);
      normalized := normalized + [Sort(EntryOrder(), Map(NormalEntry, rules[i]))];
    }
    assert rules[..|rules|] == rules;
    r := Sort(RuleOrder(), normalized);
  }

  // ----- What two rules have in common -----

  /** The same keys, and under each key the same values, counted but not ordered. */
  ghost predicate SameRule(r: Rule, s: Rule) {
    Covered(r, s) && Covered(s, r)
  }

  ghost predicate Covered(r: Rule, s: Rule) {
    forall e :: e in r ==> exists f :: f in s && SameEntry(e, f)
  }

  ghost predicate SameEntry(e: Entry, f: Entry) {
    e.0 == f.0 && multiset(e.1) == multiset(f.1)
  }

  lemma EntryKernel(e: Entry, f: Entry)
    ensures NormalEntry(e) == NormalEntry(f) <==> SameEntry(e, f)
  {
    hide Sort;
    OrdersTotal();
    SortCanonical(StringOrder(), e.1, f.1);
  }

  ghost predicate NoRepeats<T>(s: seq<T>) {
    forall i, j :: 0 <= i < j < |s| ==> s[i] != s[j]
  }

  /** Lists without repeats that have the same elements are permutations of each other. */
  lemma {:induction false} SameElements<T>(s: seq<T>, t: seq<T>)
    requires NoRepeats(s) && NoRepeats(t)
    requires forall x :: x in s <==> x in t
    ensures multiset(s) == multiset(t)
  {
    forall x
      ensures multiset(s)[x] == multiset(t)[x]
    {
      CountOnce(s, x);
      CountOnce(t, x);
    }
  }

  lemma {:induction false} CountOnce<T>(s: seq<T>, x: T)
    requires NoRepeats(s)
    ensures multiset(s)[x] == if x in s then 1 else 0
    decreases |s|
  {
    if s != [] {
      assert s == [s[0]] + s[1..];
      CountOnce(s[1..], x);
      assert s[0] !in s[1..];
    }
  }

  /** Rules have the same normal form exactly if they are the same rule. */
  lemma RuleKernel(r: Rule, s: Rule)
    requires Mapping(r) && Mapping(s)
    ensures NormalRule(r) == NormalRule(s) <==> SameRule(r, s)
  {
    hide Sort, Map, Covered, NoRepeats;
    OrdersTotal();
    var nr, ns := Map(NormalEntry, r), Map(NormalEntry, s);
    SortCanonical(EntryOrder(), nr, ns);
    NormalNoRepeats(r);
    NormalNoRepeats(s);
    NormalIn(r, s);
    NormalIn(s, r);
    if multiset(nr) == multiset(ns) {
      assert forall x :: x in nr <==> x in multiset(nr);
      assert forall x :: x in ns <==> x in multiset(ns);
    } else if SameRule(r, s) {
      SameElements(nr, ns);
    }
  }

  lemma NormalNoRepeats(r: Rule)
    requires Mapping(r)
    ensures NoRepeats(Map(NormalEntry, r))
  {
    assert forall i :: 0 <= i < |r| ==> Map(NormalEntry, r)[i].0 == r[i].0;
  }

  ghost predicate Within<T(!new)>(s: seq<T>, t: seq<T>) {
    forall x :: x in s ==> x in t
  }

  lemma NormalIn(r: Rule, s: Rule)
    ensures Within(Map(NormalEntry, r), Map(NormalEntry, s)) <==> Covered(r, s)
  {
    hide Within, Covered;
    if Within(Map(NormalEntry, r), Map(NormalEntry, s)) {
      InCovered(r, s);
    }
    if Covered(r, s) {
      CoveredIn(r, s);
    }
  }

  lemma InCovered(r: Rule, s: Rule)
    requires Within(Map(NormalEntry, r), Map(NormalEntry, s))
    ensures Covered(r, s)
  {
    hide Map, SameEntry, NormalEntry;
    var nr, ns := Map(NormalEntry, r), Map(NormalEntry, s);
    forall e | e in r
      ensures exists f :: f in s && SameEntry(e, f)
    {
      var i :| 0 <= i < |r| && r[i] == e;
      assert nr[i] == NormalEntry(e) && nr[i] in ns;
      var j :| 0 <= j < |ns| && ns[j] == nr[i];
      EntryKernel(e, s[j]);
      assert s[j] in s;
    }
  }

  lemma CoveredIn(r: Rule, s: Rule)
    requires Covered(r, s)
    ensures Within(Map(NormalEntry, r), Map(NormalEntry, s))
  {
    hide Map, SameEntry, NormalEntry;
    var nr, ns := Map(NormalEntry, r), Map(NormalEntry, s);
    forall x | x in nr
      ensures x in ns
    {
      var i :| 0 <= i < |nr| && nr[i] == x;
      assert r[i] in r && nr[i] == NormalEntry(r[i]);
      var f :| f in s && SameEntry(r[i], f);
      EntryKernel(r[i], f);
      var j :| 0 <= j < |s| && s[j] == f;
      assert ns[j] == NormalEntry(s[j]);
    }
  }

  /** The rules of a paired off with the rules of b. */
  ghost predicate Matching(a: seq<Rule>, b: seq<Rule>, p: seq<nat>) {
    && |a| == |b|
    && Permutation(p, |a|)
    && forall i :: 0 <= i < |a| ==> SameRule(a[i], b[p[i]])
  }

  /**
   The normal form is a complete invariant: two rule lists have the same one exactly if their rules
   can be paired off so that paired rules are the same up to the order of keys and of values.
   */
  lemma NormalFormComplete(a: seq<Rule>, b: seq<Rule>)
    requires Mappings(a) && Mappings(b)
    ensures NormalRules(a) == NormalRules(b) <==> exists p :: Matching(a, b, p)
  {
    hide Sort, Map, SameRule, Permutation, Mapping, NormalRule;
    OrdersTotal();
    var na, nb := Map(NormalRule, a), Map(NormalRule, b);
    SortCanonical(RuleOrder(), na, nb);
    if multiset(na) == multiset(nb) {
      var p := FindPermutation(na, nb);
      forall i | 0 <= i < |a|
        ensures SameRule(a[i], b[p[i]])
      {
        PermutationRange(p, |a|, i);
        RuleKernel(a[i], b[p[i]]);
      }
      assert Matching(a, b, p);
    }
    if exists p :: Matching(a, b, p) {
      var p :| Matching(a, b, p);
      forall i | 0 <= i < |a|
        ensures |p| == |a| && p[i] < |a| && na[i] == nb[p[i]]
      {
        PermutationRange(p, |a|, i);
        RuleKernel(a[i], b[p[i]]);
      }
      PermutedMultiset(na, nb, p);
    }
  }

  // ----- The listing -----

  /** The rules of s that t does not hold, in order. */
  function OnlyIn(s: seq<Rule>, t: seq<Rule>): seq<Rule> {
    if s == [] then [] else (if s[0] in t then [] else [s[0]]) + OnlyIn(s[1..], t)
  }

  lemma {:induction false} OnlyInMeans(s: seq<Rule>, t: seq<Rule>)
    ensures forall r :: r in OnlyIn(s, t) <==> r in s && r !in t
    ensures forall r :: r in OnlyIn(s, t) ==> multiset(OnlyIn(s, t))[r] == multiset(s)[r]
    decreases |s|
  {
    if s != [] {
      OnlyInMeans(s[1..], t);
      assert s == [s[0]] + s[1..];
      var rest := OnlyIn(s[1..], t);
      assert multiset(OnlyIn(s, t)) == (if s[0] in t then multiset{} else multiset{s[0]}) + multiset(rest);
      assert forall r :: r in multiset(rest) <==> r in rest;
      assert forall r :: r in multiset(s[1..]) <==> r in s[1..];
    }
  }

  /** The listing speaks of the files' own rules: a listed one has no counterpart on the other side. */
  lemma ListingExact(a: seq<Rule>, b: seq<Rule>, i: nat)
    requires Mappings(a) && Mappings(b) && i < |a|
    ensures NormalRule(a[i]) in OnlyIn(NormalRules(a), NormalRules(b)) <==>
            forall j :: 0 <= j < |b| ==> !SameRule(a[i], b[j])
  {
    hide SameRule, NormalRule, OnlyIn;
    OnlyInMeans(NormalRules(a), NormalRules(b));
    NormalMembers(a, NormalRule(a[i]));
    NormalMembers(b, NormalRule(a[i]));
    forall j | 0 <= j < |b|
      ensures NormalRule(a[i]) == NormalRule(b[j]) <==> SameRule(a[i], b[j])
    {
      RuleKernel(a[i], b[j]);
    }
  }

  lemma NormalMembers(a: seq<Rule>, c: Rule)
    ensures c in NormalRules(a) <==> exists j :: 0 <= j < |a| && NormalRule(a[j]) == c
  {
    hide NormalRule;
    var na := Map(NormalRule, a);
    assert c in NormalRules(a) <==> c in multiset(NormalRules(a));
    assert c in na <==> c in multiset(na);
    assert forall j :: 0 <= j < |a| ==> na[j] == NormalRule(a[j]);
  }

  /** Every rule of a has a counterpart in b. */
  ghost predicate Counterparts(a: seq<Rule>, b: seq<Rule>) {
    forall i :: 0 <= i < |a| ==> HasCounterpart(a[i], b)
  }

  ghost predicate HasCounterpart(r: Rule, b: seq<Rule>) {
    exists j :: 0 <= j < |b| && SameRule(r, b[j])
  }

  /** No rule of a is stated twice. */
  ghost predicate NoTwins(a: seq<Rule>) {
    forall i, j :: 0 <= i < j < |a| ==> !SameRule(a[i], a[j])
  }

  /** Nothing of a is listed exactly if all of it has counterparts in b. */
  lemma NothingListed(a: seq<Rule>, b: seq<Rule>)
    requires Mappings(a) && Mappings(b)
    ensures OnlyIn(NormalRules(a), NormalRules(b)) == [] <==> Counterparts(a, b)
  {
    hide NormalRule, NormalRules, OnlyIn, SameRule, Mappings;
    var only := OnlyIn(NormalRules(a), NormalRules(b));
    SomeMember(only);
    forall i | 0 <= i < |a|
      ensures NormalRule(a[i]) in only <==> !HasCounterpart(a[i], b)
    {
      ListingExact(a, b, i);
    }
    forall c | c in only
      ensures exists i :: 0 <= i < |a| && NormalRule(a[i]) == c
    {
      OnlyInMeans(NormalRules(a), NormalRules(b));
      NormalMembers(a, c);
    }
  }

  lemma {:induction false} TwinsRepeat(a: seq<Rule>)
    requires Mappings(a) && NoTwins(a)
    ensures NoRepeats(Map(NormalRule, a))
  {
    hide NormalRule, SameRule, Map;
    forall i, j | 0 <= i < j < |a|
      ensures NormalRule(a[i]) != NormalRule(a[j])
    {
      RuleKernel(a[i], a[j]);
    }
  }

  /**
   When drift is reported, nothing is listed exactly if every rule of either file has a counterpart
   in the other: they state the same rules, and only repeat some of them differently often. So if
   neither file states a rule twice, something is listed.
   */
  lemma SilentDrift(a: seq<Rule>, b: seq<Rule>)
    requires Mappings(a) && Mappings(b) && !exists p :: Matching(a, b, p)
    ensures OnlyIn(NormalRules(a), NormalRules(b)) == [] && OnlyIn(NormalRules(b), NormalRules(a)) == []
            <==> Counterparts(a, b) && Counterparts(b, a)
    ensures NoTwins(a) && NoTwins(b) ==>
            OnlyIn(NormalRules(a), NormalRules(b)) != [] || OnlyIn(NormalRules(b), NormalRules(a)) != []
  {
    hide OnlyIn, Counterparts, NoTwins, Matching, Mappings;
    NothingListed(a, b);
    NothingListed(b, a);
    if NoTwins(a) && NoTwins(b) && Counterparts(a, b) && Counterparts(b, a) {
      SameRulesMatch(a, b);
    }
  }

  lemma SameRulesMatch(a: seq<Rule>, b: seq<Rule>)
    requires Mappings(a) && Mappings(b) && NoTwins(a) && NoTwins(b) && Counterparts(a, b) && Counterparts(b, a)
    ensures exists p :: Matching(a, b, p)
  {
    hide NormalRule, SameRule, Matching, NoTwins, NoRepeats, Map, Sort, Mappings, Counterparts;
    TwinsRepeat(a);
    TwinsRepeat(b);
    CounterpartsIn(a, b);
    CounterpartsIn(b, a);
    SameElements(Map(NormalRule, a), Map(NormalRule, b));
    OrdersTotal();
    SortCanonical(RuleOrder(), Map(NormalRule, a), Map(NormalRule, b));
    NormalFormComplete(a, b);
  }

  lemma CounterpartsIn(a: seq<Rule>, b: seq<Rule>)
    requires Mappings(a) && Mappings(b) && Counterparts(a, b)
    ensures forall c :: c in Map(NormalRule, a) ==> c in Map(NormalRule, b)
  {
    hide NormalRule, SameRule, Map;
    forall c | c in Map(NormalRule, a)
      ensures c in Map(NormalRule, b)
    {
      var i :| 0 <= i < |a| && Map(NormalRule, a)[i] == c;
      assert HasCounterpart(a[i], b);
      var j :| 0 <= j < |b| && SameRule(a[i], b[j]);
      RuleKernel(a[i], b[j]);
      assert Map(NormalRule, b)[j] == c;
    }
  }

  /** It does happen: a rule repeated on one side only. */
  lemma SilentDriftExample() returns (a: seq<Rule>, b: seq<Rule>)
    ensures Mappings(a) && Mappings(b)
    ensures NormalRules(a) != NormalRules(b)
    ensures OnlyIn(NormalRules(a), NormalRules(b)) == [] && OnlyIn(NormalRules(b), NormalRules(a)) == []
  {
    hide Sort, NormalRule, OnlyIn;
    var r: Rule := [("verbs", ["get"])];
    a, b := [r, r], [r];
    var s, t := NormalRules(a), NormalRules(b);
    assert |multiset(s)| == |multiset(Map(NormalRule, a))| == 2;
    assert |multiset(t)| == |multiset(Map(NormalRule, b))| == 1;
    assert |s| == 2 && |t| == 1;
    RuleKernel(r, r);
    assert SameRule(r, b[0]) && SameRule(r, a[0]);
    assert HasCounterpart(r, a) && HasCounterpart(r, b);
    NothingListed(a, b);
    NothingListed(b, a);
  }

  lemma SomeMember<T>(s: seq<T>)
    ensures s != [] ==> exists x :: x in s
  {
    if s != [] {
      assert s[0] in s;
    }
  }

  // ----- The script -----

  const CLUSTERROLE_NAME := "hydra-operator"

  /** A rendered document; an empty one has no kind. */
  datatype Doc = Doc(kind: Option<string>, name: Option<string>, rules: seq<Rule>)

  predicate IsRole(d: Doc) {
    d.kind == Some("ClusterRole") && d.name == Some(CLUSTERROLE_NAME)
  }

  function Matches(docs: seq<Doc>): seq<Doc> {
    if docs == [] then [] else (if IsRole(docs[0]) then [docs[0]] else []) + Matches(docs[1..])
  }

  /** docs has the role at i. */
  ghost predicate RoleAt(docs: seq<Doc>, i: int) {
    0 <= i < |docs| && docs[i].kind == Some("ClusterRole") && docs[i].name == Some("hydra-operator")
  }

  /** It is there and nowhere else. */
  ghost predicate OnlyRoleAt(docs: seq<Doc>, i: int) {
    RoleAt(docs, i) && forall j :: RoleAt(docs, j) ==> j == i
  }

  datatype Loading = NotFound | Multiple | Loaded(doc: Doc)

  function LoadClusterRole(docs: seq<Doc>): Loading {
    var m := Matches(docs);
    if m == [] then NotFound else if |m| > 1 then Multiple else Loaded(m[0])
  }

  lemma {:induction false} MatchesNone(docs: seq<Doc>)
    ensures Matches(docs) == [] <==> forall i :: !RoleAt(docs, i)
    decreases |docs|
  {
    if docs != [] {
      MatchesNone(docs[1..]);
      assert forall i :: RoleAt(docs[1..], i) ==> RoleAt(docs, i + 1);
      assert forall i :: i > 0 && RoleAt(docs, i) ==> RoleAt(docs[1..], i - 1);
      assert RoleAt(docs, 0) <==> IsRole(docs[0]);
    }
  }

  /**
   A document is loaded exactly if it is the only ClusterRole named hydra-operator; none and several
   are the two errors.
   */
  lemma {:induction false} LoadIsUnique(docs: seq<Doc>, d: Doc)
    ensures LoadClusterRole(docs) == Loaded(d) <==> exists i :: OnlyRoleAt(docs, i) && docs[i] == d
    ensures LoadClusterRole(docs) == NotFound <==> forall i :: !RoleAt(docs, i)
    ensures LoadClusterRole(docs) == Multiple <==> exists i, j :: i < j && RoleAt(docs, i) && RoleAt(docs, j)
    decreases |docs|
  {
    MatchesNone(docs);
    if docs != [] {
      var rest := docs[1..];
      MatchesNone(rest);
      assert forall i :: RoleAt(rest, i) ==> RoleAt(docs, i + 1);
      assert forall i :: i > 0 && RoleAt(docs, i) ==> RoleAt(rest, i - 1);
      if IsRole(docs[0]) {
        LoadFirst(docs, d);
      } else {
        LoadIsUnique(rest, d);
        LoadLater(docs, d);
      }
    }
  }

  lemma LoadFirst(docs: seq<Doc>, d: Doc)
    requires docs != [] && IsRole(docs[0])
    requires Matches(docs[1..]) == [] <==> forall i :: !RoleAt(docs[1..], i)
    ensures LoadClusterRole(docs) == Loaded(d) <==> exists i :: OnlyRoleAt(docs, i) && docs[i] == d
    ensures LoadClusterRole(docs) == Multiple <==> exists i, j :: i < j && RoleAt(docs, i) && RoleAt(docs, j)
  {
    var rest := docs[1..];
    assert RoleAt(docs, 0);
    if Matches(rest) == [] {
      assert forall i :: i > 0 && RoleAt(docs, i) ==> RoleAt(rest, i - 1);
      assert OnlyRoleAt(docs, 0);
    } else {
      var i :| RoleAt(rest, i);
      assert RoleAt(docs, i + 1);
    }
  }

  lemma LoadLater(docs: seq<Doc>, d: Doc)
    requires docs != [] && !IsRole(docs[0])
    requires LoadClusterRole(docs[1..]) == Loaded(d) <==> exists i :: OnlyRoleAt(docs[1..], i) && docs[1..][i] == d
    requires LoadClusterRole(docs[1..]) == Multiple <==>
             exists i, j :: i < j && RoleAt(docs[1..], i) && RoleAt(docs[1..], j)
    ensures LoadClusterRole(docs) == Loaded(d) <==> exists i :: OnlyRoleAt(docs, i) && docs[i] == d
    ensures LoadClusterRole(docs) == Multiple <==> exists i, j :: i < j && RoleAt(docs, i) && RoleAt(docs, j)
  {
    var rest := docs[1..];
    assert !RoleAt(docs, 0);
    assert forall i :: RoleAt(rest, i) ==> RoleAt(docs, i + 1);
    assert forall i :: RoleAt(docs, i) ==> RoleAt(rest, i - 1);
    assert LoadClusterRole(docs) == LoadClusterRole(rest);
    if i :| OnlyRoleAt(rest, i) && rest[i] == d {
      assert OnlyRoleAt(docs, i + 1);
    }
    if i :| OnlyRoleAt(docs, i) && docs[i] == d {
      assert OnlyRoleAt(rest, i - 1);
    }
    if i, j :| i < j && RoleAt(rest, i) && RoleAt(rest, j) {
      assert RoleAt(docs, i + 1) && RoleAt(docs, j + 1);
    }
    if i, j :| i < j && RoleAt(docs, i) && RoleAt(docs, j) {
      assert RoleAt(rest, i - 1) && RoleAt(rest, j - 1);
    }
  }

  datatype Result = Unusable | InStep | Drift(onlyKustomize: seq<Rule>, onlyHelm: seq<Rule>)

  ghost predicate WellFormed(docs: seq<Doc>) {
    forall i :: 0 <= i < |docs| ==> Mappings(docs[i].rules)
  }

  lemma NormalElements(r: Rule)
    ensures forall e :: e in NormalRule(r) <==> e in Map(NormalEntry, r)
  {
    hide Sort, Map, NormalEntry;
    assert forall e :: e in NormalRule(r) <==> e in multiset(NormalRule(r));
    assert forall e :: e in Map(NormalEntry, r) <==> e in multiset(Map(NormalEntry, r));
  }

  lemma EntryNormal(e: Entry)
    ensures SameEntry(e, NormalEntry(e)) && SameEntry(NormalEntry(e), e)
  {
    hide Sort;
  }

  /** A rule and its normal form are the same rule. */
  lemma NormalIsSame(r: Rule)
    ensures SameRule(r, NormalRule(r))
  {
    hide Sort, Map, NormalEntry, NormalRule, SameEntry;
    var nr := Map(NormalEntry, r);
    NormalElements(r);
    forall e | e in r
      ensures exists f :: f in NormalRule(r) && SameEntry(e, f)
    {
      var i :| 0 <= i < |r| && r[i] == e;
      EntryNormal(e);
      assert nr[i] == NormalEntry(e) && nr[i] in nr;
    }
    forall f | f in NormalRule(r)
      ensures exists e :: e in r && SameEntry(f, e)
    {
      assert f in nr;
      var i :| 0 <= i < |nr| && nr[i] == f;
      EntryNormal(r[i]);
      assert nr[i] == NormalEntry(r[i]) && r[i] in r;
    }
  }

  lemma {:induction false} OnlyInSorted(s: seq<Rule>, t: seq<Rule>)
    requires Sorted(RuleOrder(), s)
    ensures Sorted(RuleOrder(), OnlyIn(s, t))
    ensures forall r :: r in OnlyIn(s, t) ==> r in s
    decreases |s|
  {
    hide RuleOrder;
    if s != [] {
      OnlyInSorted(s[1..], t);
      var rest := OnlyIn(s[1..], t);
      forall j | 0 <= j < |rest|
        ensures RuleOrder()(s[0], rest[j])
      {
        assert rest[j] in s[1..];
        var k :| 0 <= k < |s| - 1 && s[1..][k] == rest[j];
        assert s[k + 1] == rest[j];
      }
    }
  }

  /** What is listed of a against b: a form of each rule of a that has no counterpart in b, and nothing else. */
  ghost predicate Lists(listed: seq<Rule>, a: seq<Rule>, b: seq<Rule>) {
    && Sorted(RuleOrder(), listed)
    && (forall c :: c in listed ==> exists i :: 0 <= i < |a| && SameRule(a[i], c) && !HasCounterpart(a[i], b))
    && (forall i :: 0 <= i < |a| && !HasCounterpart(a[i], b) ==> exists c :: c in listed && SameRule(a[i], c))
  }

  lemma NormalSorted(a: seq<Rule>)
    ensures Sorted(RuleOrder(), NormalRules(a))
  {
    hide Sort, NormalRule, Sorted;
    OrdersTotal();
    SortSorted(RuleOrder(), Map(NormalRule, a));
  }

  /** Strings, and lists of them, are in Python's order: character by character, and string by string. */
  lemma OrderMeans(s: string, t: string, vs: seq<string>, ws: seq<string>)
    ensures StringOrder()(s, t) <==>
            s <= t || exists k :: 0 <= k < |s| && k < |t| && s[..k] == t[..k] && s[k] < t[k]
    ensures ValuesOrder()(vs, ws) <==>
            || vs <= ws
            || exists k :: 0 <= k < |vs| && k < |ws| && vs[..k] == ws[..k] && vs[k] != ws[k] &&
                StringOrder()(vs[k], ws[k])
  {
    OrdersTotal();
    LexMeans(CharOrder(), s, t);
    LexMeans(StringOrder(), vs, ws);
    assert forall a: char, b: char :: a != b && CharOrder()(a, b) <==> a < b;
  }

  lemma ListingLists(a: seq<Rule>, b: seq<Rule>)
    requires Mappings(a) && Mappings(b)
    ensures Lists(OnlyIn(NormalRules(a), NormalRules(b)), a, b)
  {
    hide NormalRule, NormalRules, OnlyIn, SameRule, Mapping, Sorted;
    var listed := OnlyIn(NormalRules(a), NormalRules(b));
    NormalSorted(a);
    OnlyInSorted(NormalRules(a), NormalRules(b));
    forall i | 0 <= i < |a|
      ensures SameRule(a[i], NormalRule(a[i]))
      ensures NormalRule(a[i]) in listed <==> !HasCounterpart(a[i], b)
    {
      NormalIsSame(a[i]);
      ListingExact(a, b, i);
    }
    forall c | c in listed
      ensures exists i :: 0 <= i < |a| && SameRule(a[i], c) && !HasCounterpart(a[i], b)
    {
      OnlyInMeans(NormalRules(a), NormalRules(b));
      NormalMembers(a, c);
      var i :| 0 <= i < |a| && NormalRule(a[i]) == c;
    }
  }

  /**
   What the check says of the two roles: in step exactly if their rules match up, and otherwise the
   rules of either that have no counterpart in the other.
   */
  ghost predicate Verdict(a: seq<Rule>, b: seq<Rule>, r: Result) {
    && r != Unusable
    && (r == InStep <==> exists p :: Matching(a, b, p))
    && (r.Drift? ==>
          && Lists(r.onlyKustomize, a, b)
          && Lists(r.onlyHelm, b, a)
          && (r.onlyKustomize == [] && r.onlyHelm == [] <==> Counterparts(a, b) && Counterparts(b, a))
          && (NoTwins(a) && NoTwins(b) ==> r.onlyKustomize != [] || r.onlyHelm != []))
  }

  /**
   The whole check; the exit status is success exactly on InStep. Each file must hold exactly one
   ClusterRole named hydra-operator, and the verdict is about the rules of those two.
   */
  method CheckDrift(kustomize: seq<Doc>, helm: seq<Doc>) returns (r: Result)
    requires WellFormed(kustomize) && WellFormed(helm)
    ensures r == Unusable <==> (forall i :: !OnlyRoleAt(kustomize, i)) || (forall i :: !OnlyRoleAt(helm, i))
    ensures forall i, j :: OnlyRoleAt(kustomize, i) && OnlyRoleAt(helm, j) ==>
              Verdict(kustomize[i].rules, helm[j].rules, r)
  {
    hide NormalRules, Matching, OnlyIn, Mappings, Matches, Counterparts, NoTwins, Lists, LoadClusterRole, RoleAt;
    var k, h := LoadClusterRole(kustomize), LoadClusterRole(helm);
    Usable(kustomize);
    Usable(helm);
    if !k.Loaded? || !h.Loaded? {
      return Unusable;
    }
    LoadedWellFormed(kustomize, k.doc);
    LoadedWellFormed(helm, h.doc);
    NormalFormComplete(k.doc.rules, h.doc.rules);
    var kustomizeRules := NormalizeRules(k.doc.rules);
    var helmRules := NormalizeRules(h.doc.rules);
    if kustomizeRules == helmRules {
      return InStep;
    }
    SilentDrift(k.doc.rules, h.doc.rules);
    ListingLists(k.doc.rules, h.doc.rules);
    ListingLists(h.doc.rules, k.doc.rules);
    r := Drift(OnlyIn(kustomizeRules, helmRules), OnlyIn(helmRules, kustomizeRules));
  }

  lemma LoadedWellFormed(docs: seq<Doc>, d: Doc)
    requires WellFormed(docs) && LoadClusterRole(docs) == Loaded(d)
    ensures Mappings(d.rules)
  {
    hide LoadClusterRole;
    LoadIsUnique(docs, d);
  }

  lemma Usable(docs: seq<Doc>)
    ensures LoadClusterRole(docs).Loaded? <==> exists i :: OnlyRoleAt(docs, i)
    ensures forall i :: OnlyRoleAt(docs, i) ==> LoadClusterRole(docs) == Loaded(docs[i])
    ensures forall i, j :: OnlyRoleAt(docs, i) && OnlyRoleAt(docs, j) ==> i == j
  {
    hide LoadClusterRole;
    if LoadClusterRole(docs).Loaded? {
      LoadIsUnique(docs, LoadClusterRole(docs).doc);
    }
    forall i | OnlyRoleAt(docs, i)
      ensures LoadClusterRole(docs) == Loaded(docs[i])
    {
      LoadIsUnique(docs, docs[i]);
    }
  }
}
