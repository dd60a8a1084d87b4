/** Splitting a possibly namespace-qualified resource name. */
module Names {

  /** Index of the first occurrence of `c` in `s`, or -1 when there is none
      (the behaviour of `strings.Index` for a one-character separator). */
  function IndexOf(s: string, c: char): (r: int)
    ensures r == -1 <==> c !in s
    ensures r != -1 ==> 0 <= r < |s| && s[r] == c && forall i :: 0 <= i < r ==> s[i] != c
  {
    if |s| == 0 then -1
    else if s[0] == c then 0
    else
      var i := IndexOf(s[1..], c);
      if i < 0 then -1 else i + 1
  }

  /** The first separator is found right after a prefix that does not contain it,
      whatever follows. */
  lemma IndexOfAfterPrefix(a: string, c: char, b: string)
    requires c !in a
    ensures IndexOf(a + [c] + b, c) == |a|
  {
    var s := a + [c] + b;
    assert s[|a|] == c;
    assert s[..|a|] == a;
  }

  /** `name` qualified as `namespace.local` resolves to `(local, namespace)`; an
      unqualified name resolves to itself in `currentNamespace`. The result is the
      pair `(local name, namespace)`, in that order, as in the source. */
  function ResolveResourceNames(name: string, currentNamespace: string): (r: (string, string))
    ensures '.' !in name ==> r == (name, currentNamespace)
    ensures '.' in name ==> '.' !in r.1 && r.1 + "." + r.0 == name
  {
    var idx := IndexOf(name, '.');
    if idx < 0 then (name, currentNamespace)
    else
      assert name == name[..idx] + "." + name[idx + 1..];
      (name[idx + 1..], name[..idx])
  }

  /** Qualifying a local name with a dot-free namespace and resolving it gives both
      parts back, even when the local name itself contains dots. */
  lemma QualifiedRoundTrip(namespace: string, local: string, currentNamespace: string)
    requires '.' !in namespace
    ensures ResolveResourceNames(namespace + "." + local, currentNamespace) == (local, namespace)
  {
    var name := namespace + "." + local;
    IndexOfAfterPrefix(namespace, '.', local);
    assert name[..|namespace|] == namespace;
    assert name[|namespace| + 1..] == local;
  }

  /** The namespace/local split is unique: any dot-free namespace and local name
      that rebuild `name` are the ones the resolver returns. */
  lemma ResolutionIsUnique(name: string, namespace: string, local: string, currentNamespace: string)
    requires '.' !in namespace
    requires namespace + "." + local == name
    ensures ResolveResourceNames(name, currentNamespace) == (local, namespace)
  {
    QualifiedRoundTrip(namespace, local, currentNamespace);
  }
}
