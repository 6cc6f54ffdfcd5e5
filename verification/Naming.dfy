/** The name shared by every object the operator owns for one container. */
module Naming {

  function LowerChar(c: char): char {
    if 'A' <= c <= 'Z' then (c as int + 32) as char else c
  }

  /** ASCII lowercasing; container IDs are UUIDs. */
  function ToLower(s: string): (r: string)
    ensures |r| == |s|
    ensures forall i :: 0 <= i < |s| ==> r[i] == LowerChar(s[i])
  {
    seq(|s|, i requires 0 <= i < |s| => LowerChar(s[i]))
  }

  function KsvcNameFor(containerID: string): string {
    "ksvc-" + ToLower(containerID)
  }

  /** t is s with its ASCII capitals lowered. */
  ghost predicate Lowered(s: string, t: string) {
    && |t| == |s|
    && forall i :: 0 <= i < |s| ==>
         if 'A' <= s[i] <= 'Z' then t[i] as int == s[i] as int - 'A' as int + 'a' as int else t[i] == s[i]
  }

  /** a and b are equal but for the case of ASCII letters. */
  ghost predicate SameButCase(a: string, b: string) {
    && |a| == |b|
    && forall i :: 0 <= i < |a| ==>
         || a[i] == b[i]
         || ('A' <= a[i] <= 'Z' && b[i] as int == a[i] as int - 'A' as int + 'a' as int)
         || ('A' <= b[i] <= 'Z' && a[i] as int == b[i] as int - 'A' as int + 'a' as int)
  }

  /** The name is the prefix and the lowered ID. */
  lemma NameMeans(id: string)
    ensures exists t :: Lowered(id, t) && KsvcNameFor(id) == "ksvc-" + t
  {
    assert Lowered(id, ToLower(id));
  }

  /** Two IDs share a name exactly if they are equal up to the case of ASCII letters. */
  lemma NamesCollide(a: string, b: string)
    ensures KsvcNameFor(a) == KsvcNameFor(b) <==> SameButCase(a, b)
  {
    assert KsvcNameFor(a)[5..] == ToLower(a);
    assert KsvcNameFor(b)[5..] == ToLower(b);
  }
}
