/** Reading a secret from the cluster, retrying while it is not found. */
module SecretReader {
  import opened Wrappers
  import opened Names

  /** The answer of one `Get` of a secret: found (with its data map, which may be
      nil), not found, or any other error. */
  datatype GetResult = Found(data: Option<map<string, string>>) | NotFound | OtherError

  /** The answers the cluster gives to the successive attempts the backoff policy
      allows; the policy always makes at least one attempt. */
  type Attempts = s: seq<GetResult> | |s| >= 1 witness [NotFound]

  /** The answer the retry loop ends with, and how many `Get` calls it made. */
  datatype Fetched = Fetched(result: GetResult, attempts: nat)

  /** The cluster as seen by the template helpers: for a (namespace, name) pair,
      the answers to successive `Get` attempts. */
  type Cluster = (string, string) -> Attempts

  /** Retry on NotFound only: the loop stops at the first answer that is a success
      or any other error, and gives up with NotFound once every attempt is used. */
  function FetchWithRetry(responses: Attempts): (f: Fetched)
    ensures 1 <= f.attempts <= |responses|
    ensures f.result == responses[f.attempts - 1]
    ensures forall i :: 0 <= i < f.attempts - 1 ==> responses[i].NotFound?
    ensures f.attempts < |responses| ==> !f.result.NotFound?
    ensures f.result.NotFound? <==> forall i :: 0 <= i < |responses| ==> responses[i].NotFound?
  {
    if |responses| == 1 || !responses[0].NotFound? then Fetched(responses[0], 1)
    else
      var rest := FetchWithRetry(responses[1..]);
      Fetched(rest.result, rest.attempts + 1)
  }

  /** The answer at attempt `i` is the one the retry loop settles on: every
      earlier attempt was NotFound and this one was not. */
  predicate Served(responses: Attempts, i: int) {
    && 0 <= i < |responses|
    && (forall j :: 0 <= j < i ==> responses[j].NotFound?)
    && !responses[i].NotFound?
  }

  /** The retry loop ends with the answer it settles on, when there is one, and
      with NotFound only when there is none. */
  lemma FetchServed(responses: Attempts)
    ensures forall i :: Served(responses, i) ==> FetchWithRetry(responses).result == responses[i]
    ensures !FetchWithRetry(responses).result.NotFound? ==>
      Served(responses, FetchWithRetry(responses).attempts - 1)
  {
    var f := FetchWithRetry(responses);
    forall i | Served(responses, i)
      ensures f.result == responses[i]
    {
    }
  }

  /** The answers the cluster gives for the secret a possibly qualified name
      resolves to against `namespace`. */
  function Answers(cluster: Cluster, namespace: string, lookupSecretName: string): Attempts {
    var (name, ns) := ResolveResourceNames(lookupSecretName, namespace);
    cluster(ns, name)
  }

  /** Resolves a possibly qualified secret name against `namespace` and fetches
      it with retry. */
  function Lookup(cluster: Cluster, namespace: string, lookupSecretName: string): (f: Fetched)
    ensures '.' !in lookupSecretName ==> f == FetchWithRetry(cluster(namespace, lookupSecretName))
  {
    FetchWithRetry(Answers(cluster, namespace, lookupSecretName))
  }

  /** A name `ns.local` is read from namespace `ns` under the name `local`, not from
      the current namespace. */
  lemma LookupQualified(cluster: Cluster, namespace: string, ns: string, local: string)
    requires '.' !in ns
    ensures Lookup(cluster, namespace, ns + "." + local) == FetchWithRetry(cluster(ns, local))
  {
    QualifiedRoundTrip(ns, local, namespace);
  }
}
