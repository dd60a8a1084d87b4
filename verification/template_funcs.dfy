/** The fail-soft template helpers `secret`, `htpasswdSecret` and `auth`: each
    resolves and fetches a secret, then maps the outcome to a string, degrading
    to "" instead of failing the template. */
module TemplateFuncs {
  import opened Wrappers
  import opened Names
  import opened SecretReader

  /** Reading a key of a secret's data map; a missing key reads as "", as Go's
      map index does. */
  function Get(data: map<string, string>, key: string): (v: string)
    ensures key in data ==> v == data[key]
    ensures key !in data ==> v == ""
  {
    if key in data then data[key] else ""
  }

  /** True when the fetch produced a secret whose data map is not nil. */
  predicate HasData(fetched: GetResult) {
    fetched.Found? && fetched.data.Some?
  }

  /** `secret`: the value stored under `key`, or "" when the secret could not be
      read, has nil data or lacks the key. */
  function SecretValue(fetched: GetResult, key: string): (r: string)
    ensures !HasData(fetched) ==> r == ""
    ensures HasData(fetched) && key !in fetched.data.value ==> r == ""
    ensures HasData(fetched) && key in fetched.data.value ==> r == fetched.data.value[key]
    ensures r != "" ==> HasData(fetched) && key in fetched.data.value
  {
    if fetched.OtherError? then ""
    else if HasData(fetched) then Get(fetched.data.value, key)
    else ""
  }

  /** The username and password an htpasswd line can be built from: the secret
      has data, the username is non-empty and has no ':', the password is
      non-empty and hashing it succeeds. */
  predicate HtpasswdReady(fetched: GetResult, usernameKey: string, passwordKey: string,
                          hash: string -> Option<string>)
  {
    && HasData(fetched)
    && Get(fetched.data.value, usernameKey) != ""
    && ':' !in Get(fetched.data.value, usernameKey)
    && Get(fetched.data.value, passwordKey) != ""
    && hash(Get(fetched.data.value, passwordKey)).Some?
  }

  /** `htpasswdSecret`: `username:hash(password)` when the credentials are usable,
      "" otherwise. `hash` stands for bcrypt; `None` is its error. */
  function HtpasswdValue(fetched: GetResult, usernameKey: string, passwordKey: string,
                         hash: string -> Option<string>): (r: string)
    ensures r != "" <==> HtpasswdReady(fetched, usernameKey, passwordKey, hash)
    ensures HtpasswdReady(fetched, usernameKey, passwordKey, hash) ==>
      r == Get(fetched.data.value, usernameKey) + ":"
           + hash(Get(fetched.data.value, passwordKey)).value
    ensures fetched.OtherError? || fetched.NotFound? || fetched == Found(None) ==> r == ""
    ensures HasData(fetched) && Get(fetched.data.value, usernameKey) == "" ==> r == ""
    ensures HasData(fetched) && ':' in Get(fetched.data.value, usernameKey) ==> r == ""
    ensures HasData(fetched) && Get(fetched.data.value, passwordKey) == "" ==> r == ""
  {
    if fetched.OtherError? then ""
    else if !HasData(fetched) then ""
    else
      var username := Get(fetched.data.value, usernameKey);
      if username == "" then ""
      else if ':' in username then ""
      else
        var password := Get(fetched.data.value, passwordKey);
        if password == "" then ""
        else match hash(password)
          case None => ""
          case Some(h) => username + ":" + h
  }

  /** An htpasswd line splits back at its first ':' into the username and the
      hash, because the username was checked to contain no ':'. */
  lemma HtpasswdLineSplits(fetched: GetResult, usernameKey: string, passwordKey: string,
                           hash: string -> Option<string>)
    requires HtpasswdValue(fetched, usernameKey, passwordKey, hash) != ""
    ensures var r := HtpasswdValue(fetched, usernameKey, passwordKey, hash);
            var i := IndexOf(r, ':');
            && i == |Get(fetched.data.value, usernameKey)|
            && r[..i] == Get(fetched.data.value, usernameKey)
            && r[i + 1..] == hash(Get(fetched.data.value, passwordKey)).value
  {
    var username := Get(fetched.data.value, usernameKey);
    var h := hash(Get(fetched.data.value, passwordKey)).value;
    var r := HtpasswdValue(fetched, usernameKey, passwordKey, hash);
    assert r == username + [':'] + h;
    IndexOfAfterPrefix(username, ':', h);
    assert r[..|username|] == username;
    assert r[|username| + 1..] == h;
  }

  /** `auth`: `user:password` whenever the secret has data (so ":" when both keys
      are missing), "" otherwise. The result is empty exactly when no data could
      be read. */
  function AuthValue(fetched: GetResult, userKey: string, passwordKey: string): (r: string)
    ensures HasData(fetched) ==>
      r == Get(fetched.data.value, userKey) + ":" + Get(fetched.data.value, passwordKey)
    ensures r == "" <==> !HasData(fetched)
  {
    if fetched.OtherError? then ""
    else if HasData(fetched) then
      Get(fetched.data.value, userKey) + ":" + Get(fetched.data.value, passwordKey)
    else ""
  }

  /** When the user name has no ':', the `auth` value splits back into the user
      name and the password. */
  lemma AuthSplits(fetched: GetResult, userKey: string, passwordKey: string)
    requires HasData(fetched)
    requires ':' !in Get(fetched.data.value, userKey)
    ensures var r := AuthValue(fetched, userKey, passwordKey);
            var i := IndexOf(r, ':');
            && r[..i] == Get(fetched.data.value, userKey)
            && r[i + 1..] == Get(fetched.data.value, passwordKey)
  {
    var user := Get(fetched.data.value, userKey);
    var password := Get(fetched.data.value, passwordKey);
    var r := AuthValue(fetched, userKey, passwordKey);
    assert r == user + [':'] + password;
    IndexOfAfterPrefix(user, ':', password);
    assert r[..|user|] == user;
    assert r[|user| + 1..] == password;
  }

  /** The `secret` template function as registered: resolve, fetch with retry,
      read the key. Its value is read from the answer the retries settle on for
      the resolved secret, and it is "" when they settle on none. */
  function Secret(cluster: Cluster, namespace: string, lookupSecretName: string,
                  lookupKey: string): (v: string)
    ensures var answers := Answers(cluster, namespace, lookupSecretName);
      && (forall i :: Served(answers, i) ==> v == SecretValue(answers[i], lookupKey))
      && (v != "" ==> exists i :: Served(answers, i) && HasData(answers[i]))
  {
    FetchServed(Answers(cluster, namespace, lookupSecretName));
    SecretValue(Lookup(cluster, namespace, lookupSecretName).result, lookupKey)
  }

  /** The `htpasswdSecret` template function as registered, read off the answer
      the retries settle on in the same way. */
  function HtpasswdSecret(cluster: Cluster, hash: string -> Option<string>, namespace: string,
                          lookupSecretName: string, usernameKey: string,
                          passwordKey: string): (v: string)
    ensures var answers := Answers(cluster, namespace, lookupSecretName);
      && (forall i :: Served(answers, i) ==> v == HtpasswdValue(answers[i], usernameKey, passwordKey, hash))
      && (v != "" ==> exists i :: Served(answers, i) && HtpasswdReady(answers[i], usernameKey, passwordKey, hash))
  {
    FetchServed(Answers(cluster, namespace, lookupSecretName));
    HtpasswdValue(Lookup(cluster, namespace, lookupSecretName).result, usernameKey,
                  passwordKey, hash)
  }

  /** The `auth` template function as registered, read off the answer the
      retries settle on in the same way. */
  function Auth(cluster: Cluster, namespace: string, lookupSecretName: string,
                userKey: string, passwordKey: string): (v: string)
    ensures var answers := Answers(cluster, namespace, lookupSecretName);
      && (forall i :: Served(answers, i) ==> v == AuthValue(answers[i], userKey, passwordKey))
      && (v != "" ==> exists i :: Served(answers, i) && HasData(answers[i]))
  {
    FetchServed(Answers(cluster, namespace, lookupSecretName));
    AuthValue(Lookup(cluster, namespace, lookupSecretName).result, userKey, passwordKey)
  }

  /** A secret that stays NotFound through every retry makes all three helpers
      yield "" rather than an error. */
  lemma AbsentSecretDegradesToEmpty(cluster: Cluster, hash: string -> Option<string>,
                                    namespace: string, lookupSecretName: string,
                                    k1: string, k2: string)
    requires var (name, ns) := ResolveResourceNames(lookupSecretName, namespace);
             forall i :: 0 <= i < |cluster(ns, name)| ==> cluster(ns, name)[i].NotFound?
    ensures Secret(cluster, namespace, lookupSecretName, k1) == ""
    ensures HtpasswdSecret(cluster, hash, namespace, lookupSecretName, k1, k2) == ""
    ensures Auth(cluster, namespace, lookupSecretName, k1, k2) == ""
  {
    var (name, ns) := ResolveResourceNames(lookupSecretName, namespace);
    assert FetchWithRetry(cluster(ns, name)).result.NotFound?;
  }

  /** `secret "ns.name" key` reads `key` of secret `name` in namespace `ns`,
      whatever the current namespace is. */
  lemma SecretReadsQualifiedName(cluster: Cluster, namespace: string, ns: string,
                                 name: string, key: string)
    requires '.' !in ns
    ensures Secret(cluster, namespace, ns + "." + name, key)
            == SecretValue(FetchWithRetry(cluster(ns, name)).result, key)
  {
    LookupQualified(cluster, namespace, ns, name);
  }
}
