/** The `edit` command: for every missing (key, property) reported by the
    verification pass, ask the operator for a value and write each key's
    properties through the editor of the secret's backend type. */
module Edit {
  import opened Wrappers
  import opened Names

  /** The parts of an ExternalSecret resource the command uses. */
  datatype ExternalSecret = ExternalSecret(name: string, backendType: string)

  /** One key of a secret with the properties it is still missing, in order. */
  datatype EntryError = EntryError(key: string, properties: seq<string>)

  /** A secret whose backing data is incomplete, with its missing entries. */
  datatype SecretError = SecretError(externalSecret: ExternalSecret, entryErrors: seq<EntryError>)

  datatype PropertyValue = PropertyValue(property: string, value: string)

  /** The batch handed to an editor: all resolved properties of one key. */
  datatype KeyProperties = KeyProperties(key: string, properties: seq<PropertyValue>)

  /** Schema metadata for a property; `kind` is the value of its kind label
      ("" when the label is absent). */
  datatype PropertySpec = PropertySpec(question: string, help: string, kind: string)

  /** An opaque handle on an editor built by the backend factory. */
  datatype Editor = Editor(handle: nat)

  const ConfirmKind := "confirm"

  /** The command's collaborators, as oracles: the schema load outcome, the
      schema property lookup, the masked prompt, the editor factory and the
      editors' `Write`. */
  datatype Collaborators = Collaborators(
    loadSchema: Outcome<string>,
    findProperty: (string, string) -> Result<Option<PropertySpec>, string>,
    pickPassword: (string, string) -> Result<string, string>,
    newEditor: ExternalSecret -> Result<Editor, string>,
    write: (Editor, KeyProperties) -> Outcome<string>)

  /** One call made to a collaborator, with what it returned. */
  datatype Call =
    | LoadSchema(loaded: Outcome<string>)
    | NewEditor(backendType: string, secretName: string, made: Result<Editor, string>)
    | FindProperty(objectName: string, property: string, found: Result<Option<PropertySpec>, string>)
    | PickPassword(message: string, help: string, answer: Result<string, string>)
    | Write(backendType: string, editor: Editor, batch: KeyProperties, written: Outcome<string>)

  /** True when the call reported an error. */
  predicate Failed(c: Call) {
    match c
    case LoadSchema(o) => o.Fail?
    case NewEditor(_, _, made) => made.Failure?
    case FindProperty(_, _, found) => found.Failure?
    case PickPassword(_, _, answer) => answer.Failure?
    case Write(_, _, _, written) => written.Fail?
  }

  predicate NoFailures(calls: seq<Call>) {
    forall i :: 0 <= i < |calls| ==> !Failed(calls[i])
  }

  /** The calls only look the schema up and prompt. */
  predicate OnlyQuestions(calls: seq<Call>) {
    forall i :: 0 <= i < |calls| ==> calls[i].FindProperty? || calls[i].PickPassword?
  }

  /** The call records what its collaborator returns for the call's arguments. */
  predicate Observed(env: Collaborators, c: Call) {
    match c
    case LoadSchema(loaded) => loaded == env.loadSchema
    case NewEditor(backendType, secretName, made) => made == env.newEditor(ExternalSecret(secretName, backendType))
    case FindProperty(objectName, property, found) => found == env.findProperty(objectName, property)
    case PickPassword(message, help, answer) => answer == env.pickPassword(message, help)
    case Write(_, editor, batch, written) => written == env.write(editor, batch)
  }

  predicate AllObserved(env: Collaborators, calls: seq<Call>) {
    forall i :: 0 <= i < |calls| ==> Observed(env, calls[i])
  }

  /** The command's errors, each carrying the context the source wraps it with. */
  datatype EditError =
    | VerifyFailed(cause: string)
    | SchemaLoadFailed(cause: string)
    | EditorFailed(secretName: string, cause: string)
    | SchemaLookupFailed(objectName: string, property: string, cause: string)
    | EnterFailed(property: string, key: string, secretName: string, cause: string)
    | PromptFailed(cause: string)
    | AskFailed(property: string, key: string, secretName: string, inner: EditError)
    | WriteFailed(batch: KeyProperties, secretName: string, cause: string)

  /** The prompt message and help used when the schema has no spec for a property. */
  function PropertyMessage(e: EntryError, property: string): (string, string) {
    (e.key + "." + property, "")
  }

  /** The prompt message names the key and the property: when the key has no
      `.`, the message splits at its first `.` back into the two, and the help
      is empty. */
  lemma PropertyMessageSplits(e: EntryError, property: string)
    requires '.' !in e.key
    ensures var (message, help) := PropertyMessage(e, property);
            var i := IndexOf(message, '.');
            && help == ""
            && i == |e.key|
            && message[..i] == e.key
            && message[i + 1..] == property
  {
    var message := PropertyMessage(e, property).0;
    assert message == e.key + ['.'] + property;
    IndexOfAfterPrefix(e.key, '.', property);
    assert message[..|e.key|] == e.key;
    assert message[|e.key| + 1..] == property;
  }

  /** The answer to one property question and the calls made to get it. */
  datatype Asked = Asked(answer: Result<string, EditError>, calls: seq<Call>)

  /** Ask for the value of `property` of key `e` on secret `name`: look the
      property up in the schema; with no spec prompt with the generic message,
      with a "confirm" spec give "" without prompting, with any other spec
      prompt with the spec's question and help. */
  function AskForSecretValue(env: Collaborators, e: EntryError, property: string, name: string): (a: Asked)
    ensures 1 <= |a.calls| <= 2
    ensures a.calls[0] == FindProperty(name, property, env.findProperty(name, property))
    ensures forall i :: 1 <= i < |a.calls| ==> a.calls[i].PickPassword?
    ensures a.answer.Failure? <==> Failed(a.calls[|a.calls| - 1])
    ensures |a.calls| == 2 ==> !Failed(a.calls[0])
    ensures a.answer.Success? ==>
      if |a.calls| == 2 then a.answer.value == a.calls[1].answer.value else a.answer.value == ""
    ensures AllObserved(env, a.calls)
  {
    var found := env.findProperty(name, property);
    var lookup := FindProperty(name, property, found);
    match found
    case Failure(cause) => Asked(Failure(SchemaLookupFailed(name, property, cause)), [lookup])
    case Success(propertySpec) =>
      if propertySpec.None? then
        var (message, help) := PropertyMessage(e, property);
        var answer := env.pickPassword(message, help);
        var prompt := PickPassword(message, help, answer);
        match answer
        case Failure(cause) => Asked(Failure(EnterFailed(property, e.key, name, cause)), [lookup, prompt])
        case Success(value) => Asked(Success(value), [lookup, prompt])
      else
        var spec := propertySpec.value;
        if spec.kind == ConfirmKind then Asked(Success(""), [lookup])
        else
          var answer := env.pickPassword(spec.question, spec.help);
          var prompt := PickPassword(spec.question, spec.help, answer);
          match answer
          case Failure(cause) => Asked(Failure(PromptFailed(cause)), [lookup, prompt])
          case Success(value) => Asked(Success(value), [lookup, prompt])
  }

  /** The three-way decision on the schema lookup: a lookup error fails with no
      prompt; no spec prompts once with the generic `key.property` message and
      no help; kind "confirm" answers "" with no prompt; any other kind prompts
      once with the spec's question and help. */
  lemma AskForSecretValueCases(env: Collaborators, e: EntryError, property: string, name: string)
    ensures var a := AskForSecretValue(env, e, property, name);
      env.findProperty(name, property).Failure? ==>
        && |a.calls| == 1
        && a.answer == Failure(SchemaLookupFailed(name, property, env.findProperty(name, property).error))
    ensures var a := AskForSecretValue(env, e, property, name);
      env.findProperty(name, property) == Success(None) ==>
        && |a.calls| == 2
        && a.calls[1] == PickPassword(e.key + "." + property, "",
                                      env.pickPassword(e.key + "." + property, ""))
        && (a.answer.Failure? ==>
              a.answer.error == EnterFailed(property, e.key, name, a.calls[1].answer.error))
    ensures var a := AskForSecretValue(env, e, property, name);
      env.findProperty(name, property).Success? && env.findProperty(name, property).value.Some? ==>
        var spec := env.findProperty(name, property).value.value;
        if spec.kind == ConfirmKind then a.answer == Success("") && |a.calls| == 1
        else
          && |a.calls| == 2
          && a.calls[1] == PickPassword(spec.question, spec.help,
                                        env.pickPassword(spec.question, spec.help))
          && (a.answer.Failure? ==> a.answer.error == PromptFailed(a.calls[1].answer.error))
  {
  }

  /** One missing key together with the secret it belongs to. */
  datatype Entry = Entry(secret: ExternalSecret, entry: EntryError)

  /** The question for the `j`-th missing property of an entry. */
  function Question(env: Collaborators, x: Entry, j: nat): Asked
    requires j < |x.entry.properties|
  {
    AskForSecretValue(env, x.entry, x.entry.properties[j], x.secret.name)
  }

  /** The entries of one secret, in order. */
  function EntriesOf(r: SecretError): (es: seq<Entry>)
    ensures |es| == |r.entryErrors|
  {
    seq(|r.entryErrors|, k requires 0 <= k < |r.entryErrors| => Entry(r.externalSecret, r.entryErrors[k]))
  }

  /** All entries of all secrets, in the order the command visits them. */
  function Entries(results: seq<SecretError>): seq<Entry>
  {
    if |results| == 0 then []
    else Entries(results[..|results| - 1]) + EntriesOf(results[|results| - 1])
  }

  /** Taking one more secret appends its entries. */
  lemma EntriesStep(results: seq<SecretError>, r: nat)
    requires r < |results|
    ensures Entries(results[..r + 1]) == Entries(results[..r]) + EntriesOf(results[r])
  {
    assert results[..r + 1][..r] == results[..r];
  }

  /** The entries of the first `r` secrets come first among all entries. */
  lemma {:induction false} EntriesPrefix(results: seq<SecretError>, r: nat)
    requires r <= |results|
    ensures Entries(results[..r]) <= Entries(results)
    decreases |results|
  {
    if r < |results| {
      var init := results[..|results| - 1];
      assert init[..r] == results[..r];
      EntriesPrefix(init, r);
    } else {
      assert results[..r] == results;
    }
  }

  /** While the `k`-th entry of secret `r` is being handled, the entries handled
      before it are a prefix of all entries, and it is the next one. */
  lemma ProcessedPrefix(results: seq<SecretError>, r: nat, k: nat)
    requires r < |results| && k <= |results[r].entryErrors|
    ensures var done := Entries(results[..r]) + EntriesOf(results[r])[..k];
            && |done| <= |Entries(results)|
            && done == Entries(results)[..|done|]
            && (k < |results[r].entryErrors| ==>
                  |done| < |Entries(results)|
                  && Entries(results)[|done|] == Entry(results[r].externalSecret, results[r].entryErrors[k]))
  {
    EntriesStep(results, r);
    EntriesPrefix(results, r + 1);
    var done := Entries(results[..r]) + EntriesOf(results[r])[..k];
    var upto := Entries(results[..r + 1]);
    assert done <= upto;
    if k < |results[r].entryErrors| {
      assert upto[|done|] == Entry(results[r].externalSecret, results[r].entryErrors[k]);
    }
  }

  /** Every property of the entry got an answer. */
  predicate Answered(env: Collaborators, x: Entry) {
    AnsweredUpTo(env, x, |x.entry.properties|)
  }

  /** The first `n` properties of the entry got an answer. */
  predicate AnsweredUpTo(env: Collaborators, x: Entry, n: nat)
    requires n <= |x.entry.properties|
  {
    forall j :: 0 <= j < n ==>
      Question(env, x, j).answer.Success?
  }

  /** The answers to the first `n` properties, paired with their names. */
  function Values(env: Collaborators, x: Entry, n: nat): (vs: seq<PropertyValue>)
    requires n <= |x.entry.properties|
    ensures |vs| == n
  {
    seq(n, j requires 0 <= j < n =>
      PropertyValue(x.entry.properties[j],
        Question(env, x, j).answer.GetOr("")))
  }

  predicate AllAnswered(env: Collaborators, es: seq<Entry>) {
    forall i :: 0 <= i < |es| ==> Answered(env, es[i])
  }

  /** The batch written for an entry whose properties were all answered: its key,
      and each property in order paired with its answer. */
  function Batch(env: Collaborators, x: Entry): (b: KeyProperties)
    ensures b.key == x.entry.key
    ensures |b.properties| == |x.entry.properties|
    ensures forall j :: 0 <= j < |b.properties| ==> b.properties[j].property == x.entry.properties[j]
    ensures Answered(env, x) ==>
      forall j :: 0 <= j < |b.properties| ==> b.properties[j].value == Question(env, x, j).answer.value
  {
    KeyProperties(x.entry.key, Values(env, x, |x.entry.properties|))
  }

  /** The writes expected for a sequence of entries: the backend type of the
      entry's secret and the entry's batch. */
  function Batches(env: Collaborators, es: seq<Entry>): (ws: seq<(string, KeyProperties)>)
    ensures |ws| == |es|
  {
    seq(|es|, i requires 0 <= i < |es| => (es[i].secret.backendType, Batch(env, es[i])))
  }

  /** The writes in a trace: backend type and batch of each `Write` call. */
  function WriteCalls(trace: seq<Call>): seq<(string, KeyProperties)>
  {
    if |trace| == 0 then []
    else
      var last := trace[|trace| - 1];
      WriteCalls(trace[..|trace| - 1]) + (if last.Write? then [(last.backendType, last.batch)] else [])
  }

  lemma {:induction false} WriteCallsAppend(t: seq<Call>, cs: seq<Call>)
    ensures WriteCalls(t + cs) == WriteCalls(t) + WriteCalls(cs)
    decreases |cs|
  {
    if |cs| == 0 {
      assert t + cs == t;
    } else {
      var init := cs[..|cs| - 1];
      assert (t + cs)[..|t + cs| - 1] == t + init;
      WriteCallsAppend(t, init);
    }
  }

  /** Prompting and schema lookups contain no writes. */
  lemma {:induction false} NoWritesInAsks(cs: seq<Call>)
    requires OnlyQuestions(cs)
    ensures WriteCalls(cs) == []
    decreases |cs|
  {
    if |cs| > 0 {
      NoWritesInAsks(cs[..|cs| - 1]);
    }
  }

  /** The calls made asking for the first `n` properties of an entry, in order. */
  function AskCalls(env: Collaborators, x: Entry, n: nat): seq<Call>
    requires n <= |x.entry.properties|
  {
    if n == 0 then []
    else AskCalls(env, x, n - 1)
         + Question(env, x, n - 1).calls
  }

  /** The index of the first property whose question fails, or the number of
      properties when every question is answered. */
  function FirstFailed(env: Collaborators, x: Entry): (j: nat)
    ensures j <= |x.entry.properties|
    ensures AnsweredUpTo(env, x, j)
    ensures j < |x.entry.properties| ==> Question(env, x, j).answer.Failure?
    ensures j == |x.entry.properties| <==> Answered(env, x)
  {
    FirstFailedFrom(env, x, 0)
  }

  function FirstFailedFrom(env: Collaborators, x: Entry, i: nat): (j: nat)
    requires i <= |x.entry.properties| && AnsweredUpTo(env, x, i)
    ensures i <= j <= |x.entry.properties|
    ensures AnsweredUpTo(env, x, j)
    ensures j < |x.entry.properties| ==> Question(env, x, j).answer.Failure?
    decreases |x.entry.properties| - i
  {
    if i == |x.entry.properties| || Question(env, x, i).answer.Failure? then i
    else FirstFailedFrom(env, x, i + 1)
  }

  /** A question that fails after an answered prefix is the first failure. */
  lemma FirstFailedAt(env: Collaborators, x: Entry, j: nat)
    requires j <= |x.entry.properties| && AnsweredUpTo(env, x, j)
    requires j < |x.entry.properties| ==> Question(env, x, j).answer.Failure?
    ensures FirstFailed(env, x) == j
  {
  }

  /** The calls made asking for an entry's properties in order: all of its
      questions when every one is answered, otherwise those up to and including
      the first question that fails. */
  function AskTrail(env: Collaborators, x: Entry): seq<Call> {
    var j := FirstFailed(env, x);
    if j == |x.entry.properties| then AskCalls(env, x, j)
    else AskCalls(env, x, j) + Question(env, x, j).calls
  }

  /** The question calls expected for a sequence of entries, in order. */
  function AllAskTrails(env: Collaborators, es: seq<Entry>): seq<Call> {
    if |es| == 0 then []
    else AllAskTrails(env, es[..|es| - 1]) + AskTrail(env, es[|es| - 1])
  }

  /** What handling one entry appends once its editor is cached: the entry's
      questions and, when every one was answered, the write of its batch
      through the cached editor of its backend type with what that write
      returned. */
  function EntryTrail(env: Collaborators, editors: map<string, Editor>, x: Entry): seq<Call> {
    var bt := x.secret.backendType;
    if Answered(env, x) && bt in editors then
      AskTrail(env, x) + [Write(bt, editors[bt], Batch(env, x), env.write(editors[bt], Batch(env, x)))]
    else AskTrail(env, x)
  }

  /** The questions and writes expected for a sequence of entries, in order. */
  function EntryTrails(env: Collaborators, editors: map<string, Editor>, es: seq<Entry>): seq<Call> {
    if |es| == 0 then []
    else EntryTrails(env, editors, es[..|es| - 1]) + EntryTrail(env, editors, es[|es| - 1])
  }

  /** Caching an editor for a new backend type leaves the trails of entries
      whose types were already cached unchanged. */
  lemma {:induction false} EntryTrailsKept(env: Collaborators, editors: map<string, Editor>, bt: string,
                                           editor: Editor, es: seq<Entry>)
    requires bt !in editors
    requires forall i :: 0 <= i < |es| ==> es[i].secret.backendType in editors
    ensures EntryTrails(env, editors[bt := editor], es) == EntryTrails(env, editors, es)
    decreases |es|
  {
    if |es| > 0 {
      var init := es[..|es| - 1];
      assert forall i :: 0 <= i < |init| ==> init[i] == es[i];
      EntryTrailsKept(env, editors, bt, editor, init);
      var x := es[|es| - 1];
      assert x.secret.backendType in editors;
      assert EntryTrail(env, editors[bt := editor], x) == EntryTrail(env, editors, x);
    }
  }

  /** The editor cache after the command reaches secret `s`: a backend type
      with no cached editor gets the factory's editor when the factory
      succeeds; otherwise the cache is unchanged. */
  function Cache(env: Collaborators, editors: map<string, Editor>, s: ExternalSecret): map<string, Editor> {
    if s.backendType !in editors && env.newEditor(s).Success? then editors[s.backendType := env.newEditor(s).value]
    else editors
  }

  /** The factory call the command makes on reaching secret `s`: none when its
      backend type already has an editor. */
  function FactoryCalls(env: Collaborators, editors: map<string, Editor>, s: ExternalSecret): seq<Call> {
    if s.backendType in editors then [] else [NewEditor(s.backendType, s.name, env.newEditor(s))]
  }

  /** The editor cache once the first `n` secrets have been reached. */
  function Built(env: Collaborators, results: seq<SecretError>, n: nat): map<string, Editor>
    requires n <= |results|
  {
    if n == 0 then map[] else Cache(env, Built(env, results, n - 1), results[n - 1].externalSecret)
  }

  /** The calls expected for secret `r`: its factory call, if its type has no
      editor yet, then the questions and writes of each of its entries. */
  function SecretTrail(env: Collaborators, results: seq<SecretError>, r: nat): seq<Call>
    requires r < |results|
  {
    FactoryCalls(env, Built(env, results, r), results[r].externalSecret)
    + EntryTrails(env, Built(env, results, r + 1), EntriesOf(results[r]))
  }

  /** The calls expected for the first `n` secrets, in order. */
  function SecretTrails(env: Collaborators, results: seq<SecretError>, n: nat): seq<Call>
    requires n <= |results|
  {
    if n == 0 then [] else SecretTrails(env, results, n - 1) + SecretTrail(env, results, n - 1)
  }

  /** The calls of a run that meets no error: the schema load, then every
      secret's calls in order. A run that meets an error makes these calls up
      to and including the first that fails. */
  function RunTrail(env: Collaborators, results: seq<SecretError>): seq<Call> {
    [LoadSchema(env.loadSchema)] + SecretTrails(env, results, |results|)
  }

  lemma SecretTrailsNext(env: Collaborators, results: seq<SecretError>, n: nat)
    requires n < |results|
    ensures SecretTrails(env, results, n + 1) == SecretTrails(env, results, n) + SecretTrail(env, results, n)
  {
  }

  lemma SecretTrailsGrow(env: Collaborators, results: seq<SecretError>, n: nat)
    requires n < |results|
    ensures SecretTrails(env, results, n) <= SecretTrails(env, results, n + 1)
  {
    SecretTrailsNext(env, results, n);
    PrefixAppend(SecretTrails(env, results, n), SecretTrail(env, results, n));
  }

  /** The calls expected for fewer secrets come first. */
  lemma SecretTrailsPrefix(env: Collaborators, results: seq<SecretError>, m: nat, n: nat)
    requires m <= n <= |results|
    ensures SecretTrails(env, results, m) <= SecretTrails(env, results, n)
  {
    var f := (k: nat) => if k <= |results| then SecretTrails(env, results, k) else [];
    forall k | m <= k < n
      ensures f(k) <= f(k + 1)
    {
      SecretTrailsGrow(env, results, k);
    }
    PrefixChain(f, m, n);
  }

  /** The calls expected for the first entries come first. */
  lemma {:induction false} EntryTrailsPrefix(env: Collaborators, editors: map<string, Editor>, es: seq<Entry>, m: nat)
    requires m <= |es|
    ensures EntryTrails(env, editors, es[..m]) <= EntryTrails(env, editors, es)
    decreases |es|
  {
    if m == |es| {
      TakeWhole(es);
    } else {
      var init := es[..|es| - 1];
      TakeTake(es, m, |es| - 1);
      EntryTrailsPrefix(env, editors, init, m);
      assert EntryTrails(env, editors, es) == EntryTrails(env, editors, init) + EntryTrail(env, editors, es[|es| - 1]);
      PrefixAppend(EntryTrails(env, editors, init), EntryTrail(env, editors, es[|es| - 1]));
      PrefixTrans(EntryTrails(env, editors, init[..m]), EntryTrails(env, editors, init), EntryTrails(env, editors, es));
    }
  }

  /** Two traces that are prefixes of one reference and each end at their only
      failure are the same trace: stopping at the first failure leaves no
      choice. */
  lemma FirstFailureUnique(t: seq<Call>, u: seq<Call>, reference: seq<Call>)
    requires t <= reference && u <= reference
    requires |t| > 0 && Failed(t[|t| - 1]) && NoFailures(t[..|t| - 1])
    requires |u| > 0 && Failed(u[|u| - 1]) && NoFailures(u[..|u| - 1])
    ensures t == u
  {
  }

  /** When the schema loads but the factory fails for the first secret, the
      run stopped at its first failure is exactly the schema load and that
      factory call. */
  lemma FirstFactoryFailureEndsRun(env: Collaborators, results: seq<SecretError>, t: seq<Call>)
    requires results != [] && env.loadSchema.Pass? && env.newEditor(results[0].externalSecret).Failure?
    requires t <= RunTrail(env, results)
    requires |t| > 0 && Failed(t[|t| - 1]) && NoFailures(t[..|t| - 1])
    ensures var s := results[0].externalSecret;
            t == [LoadSchema(env.loadSchema), NewEditor(s.backendType, s.name, env.newEditor(s))]
  {
    var s := results[0].externalSecret;
    var c := NewEditor(s.backendType, s.name, env.newEditor(s));
    SecretTrailsNext(env, results, 0);
    assert SecretTrail(env, results, 0)[0] == c;
    SecretTrailsPrefix(env, results, 1, |results|);
    assert RunTrail(env, results)[1] == c;
    assert |t| >= 2 by {
      assert !Failed(RunTrail(env, results)[0]);
    }
    assert t[1] == c;
    OnlyFailureLast(t, 1);
    assert t == [t[0], t[1]];
  }

  /** In a trace whose last call is its only failure, a failed call is the last. */
  lemma OnlyFailureLast(t: seq<Call>, i: nat)
    requires i < |t| && Failed(t[i]) && NoFailures(t[..|t| - 1])
    ensures i == |t| - 1
  {
  }

  /** The trace without its schema load and factory calls: the schema lookups,
      prompts and writes, in order. */
  function Steps(trace: seq<Call>): seq<Call>
  {
    if |trace| == 0 then []
    else
      var last := trace[|trace| - 1];
      Steps(trace[..|trace| - 1]) + (if last.LoadSchema? || last.NewEditor? then [] else [last])
  }

  lemma {:induction false} StepsAppend(t: seq<Call>, cs: seq<Call>)
    ensures Steps(t + cs) == Steps(t) + Steps(cs)
    decreases |cs|
  {
    if |cs| == 0 {
      assert t + cs == t;
    } else {
      var init := cs[..|cs| - 1];
      assert (t + cs)[..|t + cs| - 1] == t + init;
      StepsAppend(t, init);
    }
  }

  /** The schema lookups and prompts of a trace, in order. */
  function Questions(trace: seq<Call>): seq<Call>
  {
    if |trace| == 0 then []
    else
      var last := trace[|trace| - 1];
      Questions(trace[..|trace| - 1])
      + (if last.FindProperty? || last.PickPassword? then [last] else [])
  }

  lemma {:induction false} QuestionsAppend(t: seq<Call>, cs: seq<Call>)
    ensures Questions(t + cs) == Questions(t) + Questions(cs)
    decreases |cs|
  {
    if |cs| == 0 {
      assert t + cs == t;
    } else {
      var init := cs[..|cs| - 1];
      assert (t + cs)[..|t + cs| - 1] == t + init;
      QuestionsAppend(t, init);
    }
  }

  /** A sequence of schema lookups and prompts is its own question list and
      its own list of steps. */
  lemma {:induction false} QuestionsOnly(cs: seq<Call>)
    requires OnlyQuestions(cs)
    ensures Questions(cs) == cs
    ensures Steps(cs) == cs
    decreases |cs|
  {
    if |cs| > 0 {
      var init := cs[..|cs| - 1];
      var last := cs[|cs| - 1];
      assert OnlyQuestions(init) by {
        forall i | 0 <= i < |init|
          ensures init[i].FindProperty? || init[i].PickPassword?
        {
          assert init[i] == cs[i];
        }
      }
      QuestionsOnly(init);
      assert last.FindProperty? || last.PickPassword?;
      assert Questions(cs) == Questions(init) + [last];
      assert Steps(cs) == Steps(init) + [last];
      assert cs == init + [last];
    }
  }

  lemma ObservedAppend(env: Collaborators, a: seq<Call>, b: seq<Call>)
    requires AllObserved(env, a) && AllObserved(env, b)
    ensures AllObserved(env, a + b)
  {
    assert forall i :: |a| <= i < |a + b| ==> (a + b)[i] == b[i - |a|];
  }

  lemma NoFailuresAppend(a: seq<Call>, b: seq<Call>)
    requires NoFailures(a) && NoFailures(b)
    ensures NoFailures(a + b)
  {
    assert forall i :: |a| <= i < |a + b| ==> (a + b)[i] == b[i - |a|];
  }

  /** One more answered question extends the answered prefix and its values. */
  lemma QuestionAnswered(env: Collaborators, x: Entry, j: nat)
    requires j < |x.entry.properties|
    requires AnsweredUpTo(env, x, j)
    requires Question(env, x, j).answer.Success?
    ensures var a := Question(env, x, j);
      && AnsweredUpTo(env, x, j + 1)
      && Values(env, x, j + 1) == Values(env, x, j) + [PropertyValue(x.entry.properties[j], a.answer.value)]
  {
  }

  /** The calls of one more answered question extend the entry's calls and add
      no failure and no call other than a question. */
  lemma QuestionCalls(env: Collaborators, x: Entry, j: nat, calls: seq<Call>)
    requires j < |x.entry.properties|
    requires calls == AskCalls(env, x, j)
    requires NoFailures(calls) && OnlyQuestions(calls) && AllObserved(env, calls)
    requires Question(env, x, j).answer.Success?
    ensures var a := Question(env, x, j);
      && calls + a.calls == AskCalls(env, x, j + 1)
      && NoFailures(calls + a.calls) && OnlyQuestions(calls + a.calls) && AllObserved(env, calls + a.calls)
  {
    var a := Question(env, x, j);
    var t := calls + a.calls;
    NoFailuresAppend(calls, a.calls);
    ObservedAppend(env, calls, a.calls);
    assert forall i :: |calls| <= i < |t| ==> t[i] == a.calls[i - |calls|];
  }

  /** A failed question leaves the entry unanswered, and its last call is the
      only failure. */
  lemma QuestionFailed(env: Collaborators, x: Entry, j: nat, calls: seq<Call>)
    requires j < |x.entry.properties|
    requires NoFailures(calls) && OnlyQuestions(calls) && AllObserved(env, calls)
    requires Question(env, x, j).answer.Failure?
    ensures var t := calls + Question(env, x, j).calls;
      && !Answered(env, x)
      && |t| > 0 && Failed(t[|t| - 1]) && NoFailures(t[..|t| - 1]) && OnlyQuestions(t)
      && AllObserved(env, t)
  {
    var a := Question(env, x, j);
    var t := calls + a.calls;
    ObservedAppend(env, calls, a.calls);
    assert t[..|t| - 1] == calls + a.calls[..|a.calls| - 1];
    assert forall i :: 0 <= i < |calls| ==> t[i] == calls[i];
    assert forall i :: |calls| <= i < |t| ==> t[i] == a.calls[i - |calls|];
  }

  /** Ask for every property of an entry in order, stopping at the first error.
      The calls are the questions of each property in turn, up to the first
      that fails; on success the values are the batch for the entry; on error
      the error names the property whose question failed. */
  method AskProperties(env: Collaborators, x: Entry)
    returns (err: Option<EditError>, props: seq<PropertyValue>, calls: seq<Call>)
    ensures calls == AskTrail(env, x)
    ensures err.None? <==> Answered(env, x)
    ensures err.None? ==> props == Batch(env, x).properties
    ensures err.None? ==> calls == AskCalls(env, x, |x.entry.properties|) && NoFailures(calls)
    ensures err.Some? ==>
      && |calls| > 0 && Failed(calls[|calls| - 1]) && NoFailures(calls[..|calls| - 1])
    ensures err.Some? ==>
      var j := FirstFailed(env, x);
      && j < |x.entry.properties|
      && calls == AskCalls(env, x, j) + Question(env, x, j).calls
      && err.value == AskFailed(x.entry.properties[j], x.entry.key, x.secret.name,
                                Question(env, x, j).answer.error)
    ensures OnlyQuestions(calls)
    ensures AllObserved(env, calls)
  {
    var ps := x.entry.properties;
    props := [];
    calls := [];
    var j := 0;
    while j < |ps|
      invariant 0 <= j <= |ps|
      invariant AnsweredUpTo(env, x, j)
      invariant props == Values(env, x, j)
      invariant calls == AskCalls(env, x, j)
      invariant NoFailures(calls) && OnlyQuestions(calls)
      invariant AllObserved(env, calls)
    {
      var a := Question(env, x, j);
      if a.answer.Failure? {
        QuestionFailed(env, x, j, calls);
        FirstFailedAt(env, x, j);
        calls := calls + a.calls;
        err := Some(AskFailed(ps[j], x.entry.key, x.secret.name, a.answer.error));
        return;
      }
      QuestionAnswered(env, x, j);
      QuestionCalls(env, x, j, calls);
      calls := calls + a.calls;
      props := props + [PropertyValue(ps[j], a.answer.value)];
      j := j + 1;
    }
    FirstFailedAt(env, x, j);
    err := None;
  }

  /** Editors are memoized per backend type: the factory is called at most once
      per type, the cache holds what it returned, and every write goes to the
      cached editor of its type. */
  predicate EditorsMemoized(trace: seq<Call>, editors: map<string, Editor>) {
    && (forall i, j :: 0 <= i < j < |trace| && trace[i].NewEditor? && trace[j].NewEditor? ==>
          trace[i].backendType != trace[j].backendType)
    && (forall i :: 0 <= i < |trace| && trace[i].NewEditor? && trace[i].made.Success? ==>
          trace[i].backendType in editors && editors[trace[i].backendType] == trace[i].made.value)
    && (forall i :: 0 <= i < |trace| && trace[i].Write? ==>
          trace[i].backendType in editors && editors[trace[i].backendType] == trace[i].editor)
  }

  /** Every cached editor was built by the factory for its backend type. */
  predicate EditorsFromFactory(trace: seq<Call>, editors: map<string, Editor>) {
    forall bt :: bt in editors ==>
      exists i :: 0 <= i < |trace| && BuiltBy(trace[i], bt, editors[bt])
  }

  predicate BuiltBy(c: Call, bt: string, editor: Editor) {
    c.NewEditor? && c.backendType == bt && c.made == Success(editor)
  }

  /** The factory call for a backend type comes before every write of that type. */
  predicate EditorBeforeWrites(trace: seq<Call>) {
    forall i, j ::
      && 0 <= i < |trace| && 0 <= j < |trace| && trace[i].NewEditor? && trace[j].Write?
      && trace[i].backendType == trace[j].backendType
      ==> i < j
  }

  /** `madeAt` records where in the trace each cached editor was built: every
      factory call so far succeeded, is the one recorded for its backend type,
      and every write used the cached editor of its type, built before it. */
  predicate Tracked(trace: seq<Call>, editors: map<string, Editor>, madeAt: map<string, nat>) {
    && (forall i :: 0 <= i < |trace| && trace[i].NewEditor? ==> RecordedAt(trace[i], i, editors, madeAt))
    && (forall bt :: bt in editors ==>
          bt in madeAt && madeAt[bt] < |trace| && BuiltBy(trace[madeAt[bt]], bt, editors[bt]))
    && (forall i :: 0 <= i < |trace| && trace[i].Write? ==> UsesCached(trace[i], i, editors, madeAt))
  }

  predicate RecordedAt(c: Call, i: nat, editors: map<string, Editor>, madeAt: map<string, nat>)
    requires c.NewEditor?
  {
    c.backendType in editors && c.backendType in madeAt && madeAt[c.backendType] == i
  }

  /** A write at position `i` used the cached editor of its type, built earlier. */
  predicate UsesCached(c: Call, i: nat, editors: map<string, Editor>, madeAt: map<string, nat>)
    requires c.Write?
  {
    && c.backendType in editors && editors[c.backendType] == c.editor
    && c.backendType in madeAt && madeAt[c.backendType] < i
  }

  /** The failed last call of a stopped run, at position `i`: a factory call for
      a type with no cached editor, or a write through the cached editor, or a
      question. */
  predicate LastTracked(c: Call, i: nat, editors: map<string, Editor>, madeAt: map<string, nat>) {
    && (c.NewEditor? ==> c.backendType !in editors)
    && (c.Write? ==> UsesCached(c, i, editors, madeAt))
  }

  lemma TrackedMemoized(trace: seq<Call>, editors: map<string, Editor>, madeAt: map<string, nat>)
    requires Tracked(trace, editors, madeAt)
    ensures EditorsMemoized(trace, editors)
    ensures EditorsFromFactory(trace, editors)
    ensures EditorBeforeWrites(trace)
  {
    forall i, j | 0 <= i < j < |trace| && trace[i].NewEditor? && trace[j].NewEditor?
      ensures trace[i].backendType != trace[j].backendType
    {
      assert RecordedAt(trace[i], i, editors, madeAt) && RecordedAt(trace[j], j, editors, madeAt);
    }
    forall i | 0 <= i < |trace| && trace[i].NewEditor? && trace[i].made.Success?
      ensures trace[i].backendType in editors && editors[trace[i].backendType] == trace[i].made.value
    {
      assert RecordedAt(trace[i], i, editors, madeAt);
      assert BuiltBy(trace[madeAt[trace[i].backendType]], trace[i].backendType, editors[trace[i].backendType]);
    }
    forall bt | bt in editors
      ensures exists i :: 0 <= i < |trace| && BuiltBy(trace[i], bt, editors[bt])
    {
      assert BuiltBy(trace[madeAt[bt]], bt, editors[bt]);
    }
    forall i, j | 0 <= i < |trace| && 0 <= j < |trace| && trace[i].NewEditor? && trace[j].Write? &&
                  trace[i].backendType == trace[j].backendType
      ensures i < j
    {
      assert RecordedAt(trace[i], i, editors, madeAt) && UsesCached(trace[j], j, editors, madeAt);
    }
  }

  /** The schema load comes first and only once. */
  predicate SchemaFirst(env: Collaborators, trace: seq<Call>) {
    && |trace| > 0 && trace[0] == LoadSchema(env.loadSchema)
    && (forall i :: 1 <= i < |trace| ==> !trace[i].LoadSchema?)
  }

  /** The trace invariant of the command's loops: the schema was loaded first,
      every call records what its collaborator returned, nothing has failed,
      editors are memoized. */
  predicate Progress(env: Collaborators, trace: seq<Call>, editors: map<string, Editor>,
                           madeAt: map<string, nat>)
  {
    && SchemaFirst(env, trace)
    && AllObserved(env, trace)
    && NoFailures(trace)
    && Tracked(trace, editors, madeAt)
  }

  /** The trace of a run that stopped: its last call failed and is the only one. */
  predicate Stopped(env: Collaborators, trace: seq<Call>, editors: map<string, Editor>,
                          madeAt: map<string, nat>)
  {
    && SchemaFirst(env, trace)
    && AllObserved(env, trace)
    && Failed(trace[|trace| - 1]) && NoFailures(trace[..|trace| - 1])
    && Tracked(trace[..|trace| - 1], editors, madeAt)
    && LastTracked(trace[|trace| - 1], |trace| - 1, editors, madeAt)
  }

  lemma StoppedMemoized(trace: seq<Call>, editors: map<string, Editor>, madeAt: map<string, nat>)
    requires |trace| > 0 && Failed(trace[|trace| - 1])
    requires Tracked(trace[..|trace| - 1], editors, madeAt)
    requires LastTracked(trace[|trace| - 1], |trace| - 1, editors, madeAt)
    ensures EditorsMemoized(trace, editors)
    ensures EditorsFromFactory(trace, editors)
    ensures EditorBeforeWrites(trace)
    ensures !NoFailures(trace)
  {
    var init := trace[..|trace| - 1];
    var last := trace[|trace| - 1];
    forall i, j | 0 <= i < j < |trace| && trace[i].NewEditor? && trace[j].NewEditor?
      ensures trace[i].backendType != trace[j].backendType
    {
      assert init[i] == trace[i];
      assert RecordedAt(init[i], i, editors, madeAt);
      if j < |init| {
        assert init[j] == trace[j];
        assert RecordedAt(init[j], j, editors, madeAt);
      }
    }
    forall i | 0 <= i < |trace| && trace[i].NewEditor? && trace[i].made.Success?
      ensures trace[i].backendType in editors && editors[trace[i].backendType] == trace[i].made.value
    {
      assert init[i] == trace[i];
      assert RecordedAt(init[i], i, editors, madeAt);
      assert BuiltBy(init[madeAt[trace[i].backendType]], trace[i].backendType, editors[trace[i].backendType]);
    }
    forall i | 0 <= i < |trace| && trace[i].Write?
      ensures trace[i].backendType in editors && editors[trace[i].backendType] == trace[i].editor
    {
      if i < |init| {
        assert init[i] == trace[i];
        assert UsesCached(init[i], i, editors, madeAt);
      }
    }
    forall bt | bt in editors
      ensures exists i :: 0 <= i < |trace| && BuiltBy(trace[i], bt, editors[bt])
    {
      assert init[madeAt[bt]] == trace[madeAt[bt]];
      assert BuiltBy(init[madeAt[bt]], bt, editors[bt]);
    }
    StoppedOrdered(trace, editors, madeAt);
  }

  /** In a stopped run too, each type's factory call precedes its writes. */
  lemma StoppedOrdered(trace: seq<Call>, editors: map<string, Editor>, madeAt: map<string, nat>)
    requires |trace| > 0
    requires Tracked(trace[..|trace| - 1], editors, madeAt)
    requires LastTracked(trace[|trace| - 1], |trace| - 1, editors, madeAt)
    ensures EditorBeforeWrites(trace)
  {
    var init := trace[..|trace| - 1];
    forall i, j | 0 <= i < |trace| && 0 <= j < |trace| && trace[i].NewEditor? && trace[j].Write? &&
                  trace[i].backendType == trace[j].backendType
      ensures i < j
    {
      if i < |init| {
        assert init[i] == trace[i];
        assert RecordedAt(init[i], i, editors, madeAt);
      }
      if j < |init| {
        assert init[j] == trace[j];
        assert UsesCached(init[j], j, editors, madeAt);
      }
    }
  }

  /** The trace has handled exactly the entries `es`, through the cached
      editors of their backend types: their batches are its writes and their
      questions are its schema lookups and prompts, each entry's questions
      followed by its write, in order, and every one of their properties was
      answered. */
  predicate Handled(env: Collaborators, trace: seq<Call>, es: seq<Entry>, editors: map<string, Editor>) {
    && WriteCalls(trace) == Batches(env, es)
    && Questions(trace) == AllAskTrails(env, es)
    && Steps(trace) == EntryTrails(env, editors, es)
    && AllAnswered(env, es)
    && (forall i :: 0 <= i < |es| ==> es[i].secret.backendType in editors)
  }

  /** The trace of a run that stopped with `err`: the first `n` entries were
      answered and written, one write each and in order; a failed question
      concerns entry `n`, whose questions up to the failing one come last, and
      the error names that property. */
  predicate StoppedAt(env: Collaborators, trace: seq<Call>, es: seq<Entry>, err: EditError,
                      editors: map<string, Editor>)
  {
    var n := |WriteCalls(trace)|;
    && n <= |es|
    && WriteCalls(trace) == Batches(env, es[..n])
    && AllAnswered(env, es[..n])
    && (!err.AskFailed? ==>
          && Questions(trace) == AllAskTrails(env, es[..n])
          && Steps(trace) == EntryTrails(env, editors, es[..n]))
    && (err.AskFailed? ==>
          && n < |es|
          && !Answered(env, es[n])
          && err == AskFailed(es[n].entry.properties[FirstFailed(env, es[n])], es[n].entry.key,
                              es[n].secret.name, Question(env, es[n], FirstFailed(env, es[n])).answer.error)
          && Questions(trace) == AllAskTrails(env, es[..n]) + AskTrail(env, es[n])
          && Steps(trace) == EntryTrails(env, editors, es[..n]) + EntryTrail(env, editors, es[n]))
  }

  /** The error of a stopped run, read off its failing last call: a failed
      schema load or factory call gives the collaborator's error with the
      secret's name; a failed write gives the batch and secret of the last
      entry written and the write's error; a failed schema lookup or prompt is
      reported as the failure to ask for a property. */
  predicate ErrorOfLast(env: Collaborators, trace: seq<Call>, es: seq<Entry>, err: EditError)
    requires |trace| > 0
  {
    var last := trace[|trace| - 1];
    var n := |WriteCalls(trace)|;
    && (last.LoadSchema? ==> last.loaded.Fail? && err == SchemaLoadFailed(last.loaded.error))
    && (last.NewEditor? ==> last.made.Failure? && err == EditorFailed(last.secretName, last.made.error))
    && (last.Write? ==>
          && 0 < n <= |es| && last.written.Fail?
          && err == WriteFailed(Batch(env, es[n - 1]), es[n - 1].secret.name, last.written.error))
    && (last.FindProperty? || last.PickPassword? ==> err.AskFailed?)
  }

  /** Appending calls keeps the schema-first shape and the editor records as
      long as they neither load the schema nor build or use an editor. */
  lemma AppendQuestions(env: Collaborators, trace: seq<Call>, editors: map<string, Editor>,
                        madeAt: map<string, nat>, cs: seq<Call>)
    requires SchemaFirst(env, trace) && Tracked(trace, editors, madeAt)
    requires OnlyQuestions(cs)
    ensures SchemaFirst(env, trace + cs)
    ensures Tracked(trace + cs, editors, madeAt)
    ensures WriteCalls(trace + cs) == WriteCalls(trace)
  {
    var t := trace + cs;
    assert forall i :: 0 <= i < |trace| ==> t[i] == trace[i];
    assert forall i :: |trace| <= i < |t| ==> t[i] == cs[i - |trace|];
    WriteCallsAppend(trace, cs);
    NoWritesInAsks(cs);
  }

  /** Appending the questions asked for an entry, none of which failed: the
      run goes on. */
  lemma QuestionsGoOn(env: Collaborators, trace: seq<Call>, editors: map<string, Editor>,
                      madeAt: map<string, nat>, cs: seq<Call>)
    requires Progress(env, trace, editors, madeAt)
    requires OnlyQuestions(cs) && NoFailures(cs) && AllObserved(env, cs)
    ensures WriteCalls(trace + cs) == WriteCalls(trace)
    ensures Questions(trace + cs) == Questions(trace) + cs
    ensures Steps(trace + cs) == Steps(trace) + cs
    ensures Progress(env, trace + cs, editors, madeAt)
  {
    QuestionsAppend(trace, cs);
    StepsAppend(trace, cs);
    QuestionsOnly(cs);
    AppendQuestions(env, trace, editors, madeAt, cs);
    NoFailuresAppend(trace, cs);
    ObservedAppend(env, trace, cs);
  }

  /** Appending the questions asked for an entry, the last of which failed:
      the run stops. */
  lemma QuestionsStop(env: Collaborators, trace: seq<Call>, editors: map<string, Editor>,
                      madeAt: map<string, nat>, cs: seq<Call>)
    requires Progress(env, trace, editors, madeAt)
    requires OnlyQuestions(cs) && AllObserved(env, cs)
    requires |cs| > 0 && Failed(cs[|cs| - 1]) && NoFailures(cs[..|cs| - 1])
    ensures WriteCalls(trace + cs) == WriteCalls(trace)
    ensures Questions(trace + cs) == Questions(trace) + cs
    ensures Steps(trace + cs) == Steps(trace) + cs
    ensures Stopped(env, trace + cs, editors, madeAt)
    ensures var last := (trace + cs)[|trace + cs| - 1]; last.FindProperty? || last.PickPassword?
  {
    QuestionsAppend(trace, cs);
    StepsAppend(trace, cs);
    QuestionsOnly(cs);
    AppendQuestions(env, trace, editors, madeAt, cs);
    ObservedAppend(env, trace, cs);
    var t := trace + cs;
    var init := cs[..|cs| - 1];
    assert t[..|t| - 1] == trace + init;
    assert t[|t| - 1] == cs[|cs| - 1];
    assert OnlyQuestions(init) by {
      assert forall i :: 0 <= i < |init| ==> init[i] == cs[i];
    }
    AppendQuestions(env, trace, editors, madeAt, init);
    NoFailuresAppend(trace, init);
  }

  /** Appending a write through the cached editor of its backend type. */
  lemma AfterWrite(env: Collaborators, trace: seq<Call>, editors: map<string, Editor>,
                   madeAt: map<string, nat>, c: Call)
    requires Progress(env, trace, editors, madeAt)
    requires c.Write? && Observed(env, c)
    requires c.backendType in editors && editors[c.backendType] == c.editor
    ensures WriteCalls(trace + [c]) == WriteCalls(trace) + [(c.backendType, c.batch)]
    ensures !Failed(c) ==> Progress(env, trace + [c], editors, madeAt)
    ensures Failed(c) ==> Stopped(env, trace + [c], editors, madeAt)
  {
    var t := trace + [c];
    assert forall i :: 0 <= i < |trace| ==> t[i] == trace[i];
    assert t[..|t| - 1] == trace;
    WriteAppended(trace, c);
  }

  /** A schema load or a factory call is neither a write, a question nor a step. */
  lemma NotAStep(trace: seq<Call>, c: Call)
    requires c.LoadSchema? || c.NewEditor?
    ensures WriteCalls(trace + [c]) == WriteCalls(trace)
    ensures Questions(trace + [c]) == Questions(trace)
    ensures Steps(trace + [c]) == Steps(trace)
  {
    WriteCallsAppend(trace, [c]);
    QuestionsAppend(trace, [c]);
    StepsAppend(trace, [c]);
    assert WriteCalls([c]) == [] && Questions([c]) == [] && Steps([c]) == [];
  }

  /** A write is a step and not a question. */
  lemma WriteAppended(trace: seq<Call>, c: Call)
    requires c.Write?
    ensures WriteCalls(trace + [c]) == WriteCalls(trace) + [(c.backendType, c.batch)]
    ensures Questions(trace + [c]) == Questions(trace)
    ensures Steps(trace + [c]) == Steps(trace) + [c]
  {
    WriteCallsAppend(trace, [c]);
    QuestionsAppend(trace, [c]);
    StepsAppend(trace, [c]);
    assert WriteCalls([c]) == [(c.backendType, c.batch)];
    assert Questions([c]) == [] && Steps([c]) == [c];
  }

  /** Appending a failed factory call for a backend type with no cached editor. */
  lemma AfterEditorFailed(env: Collaborators, trace: seq<Call>, editors: map<string, Editor>,
                          madeAt: map<string, nat>, c: Call)
    requires Progress(env, trace, editors, madeAt)
    requires c.NewEditor? && Observed(env, c) && c.backendType !in editors && c.made.Failure?
    ensures WriteCalls(trace + [c]) == WriteCalls(trace)
    ensures Stopped(env, trace + [c], editors, madeAt)
  {
    var t := trace + [c];
    assert forall i :: 0 <= i < |trace| ==> t[i] == trace[i];
    assert t[..|t| - 1] == trace;
    WriteCallsAppend(trace, [c]);
    assert WriteCalls([c]) == [];
  }

  /** Appending a successful factory call for a backend type with no cached
      editor: the new editor is cached and recorded at the call's position. */
  lemma AfterEditorMade(env: Collaborators, trace: seq<Call>, editors: map<string, Editor>,
                        madeAt: map<string, nat>, c: Call)
    requires Progress(env, trace, editors, madeAt)
    requires c.NewEditor? && Observed(env, c) && c.backendType !in editors && c.made.Success?
    ensures WriteCalls(trace + [c]) == WriteCalls(trace)
    ensures Progress(env, trace + [c], editors[c.backendType := c.made.value],
                     madeAt[c.backendType := |trace|])
  {
    var t := trace + [c];
    assert forall i :: 0 <= i < |trace| ==> t[i] == trace[i];
    assert SchemaFirst(env, t);
    assert NoFailures(t);
    assert AllObserved(env, t);
    TrackedAfterMade(trace, editors, madeAt, c);
    WriteCallsAppend(trace, [c]);
    assert WriteCalls([c]) == [];
  }

  /** A successful factory call for a new backend type is recorded at its
      position and its editor cached. */
  lemma TrackedAfterMade(trace: seq<Call>, editors: map<string, Editor>, madeAt: map<string, nat>, c: Call)
    requires Tracked(trace, editors, madeAt)
    requires c.NewEditor? && c.backendType !in editors && c.made.Success?
    ensures Tracked(trace + [c], editors[c.backendType := c.made.value], madeAt[c.backendType := |trace|])
  {
    var t := trace + [c];
    var editors' := editors[c.backendType := c.made.value];
    var madeAt' := madeAt[c.backendType := |trace|];
    assert forall i :: 0 <= i < |trace| ==> t[i] == trace[i];
    forall i | 0 <= i < |t| && t[i].NewEditor?
      ensures RecordedAt(t[i], i, editors', madeAt')
    {
      if i < |trace| {
        assert RecordedAt(trace[i], i, editors, madeAt);
      }
    }
    forall bt | bt in editors'
      ensures bt in madeAt' && madeAt'[bt] < |t| && BuiltBy(t[madeAt'[bt]], bt, editors'[bt])
    {
      if bt != c.backendType {
        assert BuiltBy(trace[madeAt[bt]], bt, editors[bt]);
      }
    }
    forall i | 0 <= i < |t| && t[i].Write?
      ensures UsesCached(t[i], i, editors', madeAt')
    {
      assert UsesCached(trace[i], i, editors, madeAt);
    }
  }

  /** Ask every property of one entry and write its batch through `editor`:
      the entry's questions in order, then one write of the full batch unless a
      question failed. */
  method HandleEntry(env: Collaborators, editors: map<string, Editor>, madeAt: map<string, nat>,
                     editor: Editor, x: Entry, trace: seq<Call>)
    returns (err: Option<EditError>, trace': seq<Call>)
    requires Progress(env, trace, editors, madeAt)
    requires x.secret.backendType in editors && editors[x.secret.backendType] == editor
    ensures Answered(env, x) ==>
      trace' == trace + AskTrail(env, x)
                + [Write(x.secret.backendType, editor, Batch(env, x), env.write(editor, Batch(env, x)))]
    ensures !Answered(env, x) ==> trace' == trace + AskTrail(env, x)
    ensures Questions(trace') == Questions(trace) + AskTrail(env, x)
    ensures WriteCalls(trace') == WriteCalls(trace)
      + (if Answered(env, x) then [(x.secret.backendType, Batch(env, x))] else [])
    ensures err.None? <==> Answered(env, x) && env.write(editor, Batch(env, x)).Pass?
    ensures err.Some? && Answered(env, x) ==>
      err.value == WriteFailed(Batch(env, x), x.secret.name, env.write(editor, Batch(env, x)).error)
    ensures err.Some? && !Answered(env, x) ==>
      var j := FirstFailed(env, x);
      err.value == AskFailed(x.entry.properties[j], x.entry.key, x.secret.name,
                             Question(env, x, j).answer.error)
    ensures Steps(trace') == Steps(trace) + EntryTrail(env, editors, x)
    ensures err.Some? && !Answered(env, x) ==>
      |trace'| > 0 && (trace'[|trace'| - 1].FindProperty? || trace'[|trace'| - 1].PickPassword?)
    ensures err.None? ==> Progress(env, trace', editors, madeAt)
    ensures err.Some? ==> Stopped(env, trace', editors, madeAt)
  {
    var bt := x.secret.backendType;
    var askErr, props, calls := AskProperties(env, x);
    trace' := trace + calls;
    if askErr.Some? {
      EntryUnanswered(env, trace, editors, madeAt, x, calls);
      err := askErr;
      return;
    }
    var batch := KeyProperties(x.entry.key, props);
    var written := env.write(editor, batch);
    var call := Write(bt, editor, batch, written);
    EntryAnswered(env, trace, editors, madeAt, x, calls, call);
    trace' := trace' + [call];
    if written.Fail? {
      err := Some(WriteFailed(batch, x.secret.name, written.error));
      return;
    }
    err := None;
  }

  /** Appending the questions of an entry one of which failed: the run stops
      at that question and nothing is written. */
  lemma EntryUnanswered(env: Collaborators, trace: seq<Call>, editors: map<string, Editor>,
                        madeAt: map<string, nat>, x: Entry, calls: seq<Call>)
    requires Progress(env, trace, editors, madeAt)
    requires !Answered(env, x) && calls == AskTrail(env, x)
    requires OnlyQuestions(calls) && AllObserved(env, calls)
    requires |calls| > 0 && Failed(calls[|calls| - 1]) && NoFailures(calls[..|calls| - 1])
    ensures WriteCalls(trace + calls) == WriteCalls(trace)
    ensures Questions(trace + calls) == Questions(trace) + AskTrail(env, x)
    ensures Steps(trace + calls) == Steps(trace) + EntryTrail(env, editors, x)
    ensures Stopped(env, trace + calls, editors, madeAt)
    ensures var last := (trace + calls)[|trace + calls| - 1]; last.FindProperty? || last.PickPassword?
  {
    QuestionsStop(env, trace, editors, madeAt, calls);
  }

  /** Appending the questions of an entry all of which were answered, then the
      write of its batch through the cached editor of its type. */
  lemma EntryAnswered(env: Collaborators, trace: seq<Call>, editors: map<string, Editor>,
                      madeAt: map<string, nat>, x: Entry, calls: seq<Call>, c: Call)
    requires Progress(env, trace, editors, madeAt)
    requires Answered(env, x) && calls == AskTrail(env, x)
    requires OnlyQuestions(calls) && AllObserved(env, calls) && NoFailures(calls)
    requires x.secret.backendType in editors
    requires c == Write(x.secret.backendType, editors[x.secret.backendType], Batch(env, x),
                        env.write(editors[x.secret.backendType], Batch(env, x)))
    ensures WriteCalls(trace + calls + [c]) == WriteCalls(trace) + [(x.secret.backendType, Batch(env, x))]
    ensures Questions(trace + calls + [c]) == Questions(trace) + AskTrail(env, x)
    ensures Steps(trace + calls + [c]) == Steps(trace) + EntryTrail(env, editors, x)
    ensures !Failed(c) ==> Progress(env, trace + calls + [c], editors, madeAt)
    ensures Failed(c) ==> Stopped(env, trace + calls + [c], editors, madeAt)
  {
    QuestionsGoOn(env, trace, editors, madeAt, calls);
    AfterWrite(env, trace + calls, editors, madeAt, c);
    WriteAppended(trace + calls, c);
  }

  /** The entries handled before the `k`-th entry of secret `r`. */
  function Done(results: seq<SecretError>, r: nat, k: nat): seq<Entry>
    requires r < |results| && k <= |results[r].entryErrors|
  {
    Entries(results[..r]) + EntriesOf(results[r])[..k]
  }

  /** A run that stopped with a failed factory call or write, after the
      entries before the `k`-th entry of secret `r`, stopped at that position
      among all entries. */
  lemma StoppedAfter(env: Collaborators, results: seq<SecretError>, r: nat, k: nat, t: seq<Call>,
                     err: EditError, editors: map<string, Editor>)
    requires r < |results| && k <= |results[r].entryErrors|
    requires !err.AskFailed?
    requires WriteCalls(t) == Batches(env, Done(results, r, k))
    requires AllAnswered(env, Done(results, r, k))
    requires Questions(t) == AllAskTrails(env, Done(results, r, k))
    requires Steps(t) == EntryTrails(env, editors, Done(results, r, k))
    ensures StoppedAt(env, t, Entries(results), err, editors)
  {
    ProcessedPrefix(results, r, k);
  }

  /** A run that stopped at a failed question of the `k`-th entry of secret
      `r` stopped at that entry among all entries. */
  lemma StoppedAsking(env: Collaborators, results: seq<SecretError>, r: nat, k: nat, t: seq<Call>,
                      err: EditError, editors: map<string, Editor>)
    requires r < |results| && k < |results[r].entryErrors|
    requires WriteCalls(t) == Batches(env, Done(results, r, k))
    requires AllAnswered(env, Done(results, r, k))
    requires var x := Entry(results[r].externalSecret, results[r].entryErrors[k]);
      && !Answered(env, x)
      && err == AskFailed(x.entry.properties[FirstFailed(env, x)], x.entry.key, x.secret.name,
                          Question(env, x, FirstFailed(env, x)).answer.error)
      && Questions(t) == AllAskTrails(env, Done(results, r, k)) + AskTrail(env, x)
      && Steps(t) == EntryTrails(env, editors, Done(results, r, k)) + EntryTrail(env, editors, x)
    ensures StoppedAt(env, t, Entries(results), err, editors)
  {
    ProcessedPrefix(results, r, k);
    StoppedAtAsk(env, t, Entries(results), |Done(results, r, k)|, err, editors);
  }

  /** A run whose first `n` entries were handled and whose question for entry
      `n` then failed stopped at entry `n`. */
  lemma StoppedAtAsk(env: Collaborators, t: seq<Call>, es: seq<Entry>, n: nat, err: EditError,
                     editors: map<string, Editor>)
    requires n < |es|
    requires WriteCalls(t) == Batches(env, es[..n])
    requires AllAnswered(env, es[..n])
    requires !Answered(env, es[n])
    requires err == AskFailed(es[n].entry.properties[FirstFailed(env, es[n])], es[n].entry.key,
                              es[n].secret.name, Question(env, es[n], FirstFailed(env, es[n])).answer.error)
    requires Questions(t) == AllAskTrails(env, es[..n]) + AskTrail(env, es[n])
    requires Steps(t) == EntryTrails(env, editors, es[..n]) + EntryTrail(env, editors, es[n])
    ensures StoppedAt(env, t, es, err, editors)
  {
  }

  lemma TakeAll<T>(s: seq<T>, x: T)
    ensures (s + [x])[..|s|] == s
    ensures forall i :: 0 <= i < |s| ==> (s + [x])[i] == s[i]
    ensures (s + [x])[|s|] == x
  {
  }

  lemma AppendAssoc<T>(a: seq<T>, b: seq<T>, c: seq<T>)
    ensures a + b + c == a + (b + c)
  {
  }

  lemma PrefixAppend<T>(a: seq<T>, b: seq<T>)
    ensures a <= a + b
  {
  }

  /** A trace between `t + done` and `t + done + step` lies between `t` and
      `t + all` when `done + step` is a prefix of `all`. */
  lemma PrefixBetween<T>(t: seq<T>, done: seq<T>, step: seq<T>, all: seq<T>, p: seq<T>)
    requires t + done <= p && p <= t + done + step && done + step <= all
    ensures t <= p && p <= t + all
  {
    assert t + done + step == t + (done + step);
    assert t + (done + step) <= t + all;
  }

  /** Sequences that each extend the one before form a chain of prefixes. */
  lemma {:induction false} PrefixChain<T>(f: nat -> seq<T>, m: nat, n: nat)
    requires m <= n
    requires forall k :: m <= k < n ==> f(k) <= f(k + 1)
    ensures f(m) <= f(n)
    decreases n - m
  {
    if m < n {
      PrefixChain(f, m + 1, n);
      PrefixTrans(f(m), f(m + 1), f(n));
    } else {
      PrefixSelf(f(m));
    }
  }

  lemma PrefixSelf<T>(a: seq<T>)
    ensures a <= a
  {
  }

  lemma PrefixTrans<T>(a: seq<T>, b: seq<T>, c: seq<T>)
    requires a <= b && b <= c
    ensures a <= c
  {
  }

  lemma TakeTake<T>(s: seq<T>, m: nat, n: nat)
    requires m <= n <= |s|
    ensures s[..n][..m] == s[..m]
  {
  }

  /** `t + a` lies between `t` and `t + b` when `a` is a prefix of `b`. */
  lemma PrefixWithin<T>(t: seq<T>, a: seq<T>, b: seq<T>)
    requires a <= b
    ensures t <= t + a && t + a <= t + b
  {
    assert t + a == (t + b)[..|t + a|];
  }

  lemma TakeWhole<T>(s: seq<T>)
    ensures s[..|s|] == s
  {
  }

  lemma LastTaken<T>(a: seq<T>, b: seq<T>, k: nat)
    requires 0 < k <= |b|
    ensures (a + b[..k])[|a + b[..k]| - 1] == b[k - 1]
  {
  }

  /** The error of a run that stopped while handling the `k`-th entry of
      secret `r`, read off its last call: a failed write concerns the entry
      just before position `k`, which is the last entry written. */
  lemma ErrorAfter(env: Collaborators, results: seq<SecretError>, r: nat, k: nat, t: seq<Call>,
                   err: EditError)
    requires r < |results| && k <= |results[r].entryErrors|
    requires WriteCalls(t) == Batches(env, Done(results, r, k))
    requires |t| > 0 && !t[|t| - 1].LoadSchema? && Failed(t[|t| - 1])
    requires t[|t| - 1].NewEditor? ==> err == EditorFailed(t[|t| - 1].secretName, t[|t| - 1].made.error)
    requires t[|t| - 1].Write? ==>
      && 0 < k
      && var x := Entry(results[r].externalSecret, results[r].entryErrors[k - 1]);
         err == WriteFailed(Batch(env, x), x.secret.name, t[|t| - 1].written.error)
    requires t[|t| - 1].FindProperty? || t[|t| - 1].PickPassword? ==> err.AskFailed?
    ensures ErrorOfLast(env, t, Entries(results), err)
  {
    if t[|t| - 1].Write? {
      LastEntryWritten(results, r, k);
    }
  }

  /** The entry just before the `k`-th entry of secret `r`, among all entries. */
  lemma LastEntryWritten(results: seq<SecretError>, r: nat, k: nat)
    requires r < |results| && 0 < k <= |results[r].entryErrors|
    ensures 0 < |Done(results, r, k)| <= |Entries(results)|
    ensures Entries(results)[|Done(results, r, k)| - 1]
         == Entry(results[r].externalSecret, results[r].entryErrors[k - 1])
  {
    ProcessedPrefix(results, r, k);
    LastTaken(Entries(results[..r]), EntriesOf(results[r]), k);
  }

  /** Caching an editor for a new backend type keeps what was handled. */
  lemma HandledKept(env: Collaborators, trace: seq<Call>, es: seq<Entry>, editors: map<string, Editor>,
                    bt: string, editor: Editor)
    requires Handled(env, trace, es, editors) && bt !in editors
    ensures Handled(env, trace, es, editors[bt := editor])
  {
    EntryTrailsKept(env, editors, bt, editor, es);
  }

  /** Handling one more entry in full extends the handled entries by it. */
  lemma HandledStep(env: Collaborators, done: seq<Entry>, x: Entry, t: seq<Call>, t': seq<Call>,
                     editors: map<string, Editor>)
    requires Handled(env, t, done, editors)
    requires Answered(env, x) && x.secret.backendType in editors
    requires WriteCalls(t') == WriteCalls(t) + [(x.secret.backendType, Batch(env, x))]
    requires Questions(t') == Questions(t) + AskTrail(env, x)
    requires Steps(t') == Steps(t) + EntryTrail(env, editors, x)
    ensures Handled(env, t', done + [x], editors)
  {
    TrailsStep(env, editors, done, x);
    AnsweredStep(env, editors, done, x);
  }

  /** One more answered entry of a cached type keeps every handled entry
      answered and of a cached type. */
  lemma AnsweredStep(env: Collaborators, editors: map<string, Editor>, done: seq<Entry>, x: Entry)
    requires AllAnswered(env, done) && Answered(env, x)
    requires forall i :: 0 <= i < |done| ==> done[i].secret.backendType in editors
    requires x.secret.backendType in editors
    ensures AllAnswered(env, done + [x])
    ensures forall i :: 0 <= i < |done + [x]| ==> (done + [x])[i].secret.backendType in editors
  {
    TakeAll(done, x);
  }

  /** The expected writes, questions and steps of one more entry follow those
      of the entries before it. */
  lemma TrailsStep(env: Collaborators, editors: map<string, Editor>, done: seq<Entry>, x: Entry)
    ensures Batches(env, done + [x]) == Batches(env, done) + [(x.secret.backendType, Batch(env, x))]
    ensures AllAskTrails(env, done + [x]) == AllAskTrails(env, done) + AskTrail(env, x)
    ensures EntryTrails(env, editors, done + [x]) == EntryTrails(env, editors, done) + EntryTrail(env, editors, x)
  {
    TakeAll(done, x);
  }

  /** After the `k`-th entry of secret `r`, the handled entries are those before
      it followed by it. */
  lemma DoneStep(results: seq<SecretError>, r: nat, k: nat)
    requires r < |results| && k < |results[r].entryErrors|
    ensures Done(results, r, k + 1)
         == Done(results, r, k) + [Entry(results[r].externalSecret, results[r].entryErrors[k])]
  {
    var x := Entry(results[r].externalSecret, results[r].entryErrors[k]);
    assert EntriesOf(results[r])[..k + 1] == EntriesOf(results[r])[..k] + [x];
  }

  /** Before the first entry of secret `r` the handled entries are those of the
      earlier secrets; after the last, those of the first `r + 1` secrets. */
  lemma DoneEnds(results: seq<SecretError>, r: nat)
    requires r < |results|
    ensures Done(results, r, 0) == Entries(results[..r])
    ensures Done(results, r, |results[r].entryErrors|) == Entries(results[..r + 1])
  {
    EntriesStep(results, r);
    assert EntriesOf(results[r])[..0] == [];
    assert EntriesOf(results[r])[..|results[r].entryErrors|] == EntriesOf(results[r]);
  }

  /** The editor for secret `res`: the cached one of its backend type, or a new
      one from the factory, which is then cached. */
  method EditorFor(env: Collaborators, res: SecretError, trace: seq<Call>,
                   editors: map<string, Editor>, madeAt: map<string, nat>)
    returns (err: Option<EditError>, editor: Editor, trace': seq<Call>,
             editors': map<string, Editor>, madeAt': map<string, nat>)
    requires Progress(env, trace, editors, madeAt)
    ensures WriteCalls(trace') == WriteCalls(trace)
    ensures Questions(trace') == Questions(trace)
    ensures Steps(trace') == Steps(trace)
    ensures err.None? ==>
      && Progress(env, trace', editors', madeAt')
      && res.externalSecret.backendType in editors'
      && editors'[res.externalSecret.backendType] == editor
    ensures err.None? && res.externalSecret.backendType in editors ==>
      trace' == trace && editors' == editors && editor == editors[res.externalSecret.backendType]
    ensures res.externalSecret.backendType !in editors ==>
      trace' == trace + [NewEditor(res.externalSecret.backendType, res.externalSecret.name,
                                   env.newEditor(res.externalSecret))]
    ensures err.None? && res.externalSecret.backendType !in editors ==>
      && env.newEditor(res.externalSecret) == Success(editor)
      && editors' == editors[res.externalSecret.backendType := editor]
    ensures err.Some? ==>
      && Stopped(env, trace', editors', madeAt')
      && res.externalSecret.backendType !in editors && editors' == editors
      && env.newEditor(res.externalSecret).Failure?
      && err.value == EditorFailed(res.externalSecret.name, env.newEditor(res.externalSecret).error)
  {
    var bt := res.externalSecret.backendType;
    trace' := trace;
    editors' := editors;
    madeAt' := madeAt;
    if bt in editors {
      err := None;
      editor := editors[bt];
      return;
    }
    var made := env.newEditor(res.externalSecret);
    var call := NewEditor(bt, res.externalSecret.name, made);
    trace' := trace + [call];
    NotAStep(trace, call);
    assert res.externalSecret == ExternalSecret(res.externalSecret.name, bt);
    if made.Failure? {
      AfterEditorFailed(env, trace, editors, madeAt, call);
      err := Some(EditorFailed(res.externalSecret.name, made.error));
      editor := Editor(0);
      return;
    }
    AfterEditorMade(env, trace, editors, madeAt, call);
    err := None;
    editor := made.value;
    editors' := editors[bt := editor];
    madeAt' := madeAt[bt := |trace|];
  }

  /** Handle the `k`-th entry of secret `r` through the cached editor of its
      backend type. */
  method HandleNext(env: Collaborators, results: seq<SecretError>, r: nat, k: nat,
                    editors: map<string, Editor>, madeAt: map<string, nat>, editor: Editor,
                    trace: seq<Call>)
    returns (err: Option<EditError>, trace': seq<Call>)
    requires r < |results| && k < |results[r].entryErrors|
    requires results[r].externalSecret.backendType in editors
    requires editors[results[r].externalSecret.backendType] == editor
    requires Progress(env, trace, editors, madeAt)
    requires Handled(env, trace, Done(results, r, k), editors)
    ensures trace' == trace + EntryTrail(env, editors, Entry(results[r].externalSecret, results[r].entryErrors[k]))
    ensures err.None? ==>
      && Progress(env, trace', editors, madeAt)
      && Handled(env, trace', Done(results, r, k + 1), editors)
    ensures err.Some? ==>
      && Stopped(env, trace', editors, madeAt)
      && StoppedAt(env, trace', Entries(results), err.value, editors)
      && ErrorOfLast(env, trace', Entries(results), err.value)
  {
    var x := Entry(results[r].externalSecret, results[r].entryErrors[k]);
    err, trace' := HandleEntry(env, editors, madeAt, editor, x, trace);
    EntryTrailAppended(env, editors, editor, x, trace, trace');
    if !Answered(env, x) {
      StoppedAsking(env, results, r, k, trace', err.value, editors);
      ErrorAfter(env, results, r, k, trace', err.value);
      return;
    }
    DoneStep(results, r, k);
    HandledStep(env, Done(results, r, k), x, trace, trace', editors);
    if err.Some? {
      StoppedAfter(env, results, r, k + 1, trace', err.value, editors);
      ErrorAfter(env, results, r, k + 1, trace', err.value);
    }
  }

  /** The editor for secret `r` within the run: the entries of the earlier
      secrets stay handled, or the run stops at the failed factory call. */
  method SecretEditor(env: Collaborators, results: seq<SecretError>, r: nat, trace: seq<Call>,
                      editors: map<string, Editor>, madeAt: map<string, nat>)
    returns (err: Option<EditError>, editor: Editor, trace': seq<Call>, editors': map<string, Editor>,
             madeAt': map<string, nat>)
    requires r < |results|
    requires Progress(env, trace, editors, madeAt)
    requires Handled(env, trace, Done(results, r, 0), editors)
    ensures err.None? ==>
      && Progress(env, trace', editors', madeAt')
      && Handled(env, trace', Done(results, r, 0), editors')
      && results[r].externalSecret.backendType in editors'
      && editors'[results[r].externalSecret.backendType] == editor
    ensures err.Some? ==>
      && Stopped(env, trace', editors', madeAt')
      && StoppedAt(env, trace', Entries(results), err.value, editors')
      && ErrorOfLast(env, trace', Entries(results), err.value)
    ensures trace' == trace + FactoryCalls(env, editors, results[r].externalSecret)
    ensures editors' == Cache(env, editors, results[r].externalSecret)
    ensures err.Some? ==>
      && results[r].externalSecret.backendType !in editors
      && env.newEditor(results[r].externalSecret).Failure?
      && err.value == EditorFailed(results[r].externalSecret.name, env.newEditor(results[r].externalSecret).error)
  {
    var bt := results[r].externalSecret.backendType;
    err, editor, trace', editors', madeAt' := EditorFor(env, results[r], trace, editors, madeAt);
    FactoryStep(env, results[r].externalSecret, editors, trace, err, editor, trace', editors');
    if err.Some? {
      StoppedAfter(env, results, r, 0, trace', err.value, editors');
      ErrorAfter(env, results, r, 0, trace', err.value);
      return;
    }
    if bt !in editors {
      HandledKept(env, trace, Done(results, r, 0), editors, bt, editor);
    }
  }

  /** Get (or build once) the editor of secret `r`'s backend type, then handle
      each of its entries in order. */
  method HandleSecret(env: Collaborators, results: seq<SecretError>, r: nat, trace: seq<Call>,
                      editors: map<string, Editor>, madeAt: map<string, nat>)
    returns (err: Option<EditError>, trace': seq<Call>, editors': map<string, Editor>,
             madeAt': map<string, nat>)
    requires r < |results|
    requires Progress(env, trace, editors, madeAt)
    requires Handled(env, trace, Entries(results[..r]), editors)
    requires editors == Built(env, results, r)
    ensures err.None? ==>
      && Progress(env, trace', editors', madeAt')
      && Handled(env, trace', Entries(results[..r + 1]), editors')
    ensures err.Some? ==>
      && Stopped(env, trace', editors', madeAt')
      && StoppedAt(env, trace', Entries(results), err.value, editors')
      && ErrorOfLast(env, trace', Entries(results), err.value)
    ensures editors' == Built(env, results, r + 1)
    ensures err.None? ==> trace' == trace + SecretTrail(env, results, r)
    ensures err.Some? ==> trace <= trace' && trace' <= trace + SecretTrail(env, results, r)
  {
    var res := results[r];
    DoneEnds(results, r);
    var editor: Editor;
    err, editor, trace', editors', madeAt' := SecretEditor(env, results, r, trace, editors, madeAt);
    ghost var started := trace';
    if err.Some? {
      PrefixSelf(started);
      PrefixAppend(started, EntryTrails(env, editors', EntriesOf(res)));
      SecretPartial(env, results, r, trace, started, trace');
      return;
    }
    err, trace' := HandleEntries(env, results, r, editors', madeAt', editor, trace');
    if err.Some? {
      SecretPartial(env, results, r, trace, started, trace');
    } else {
      SecretWhole(env, results, r, trace, started, trace');
    }
  }

  /** Handle the entries of secret `r` in order through the cached editor of
      its backend type, stopping at the first error. */
  method HandleEntries(env: Collaborators, results: seq<SecretError>, r: nat, editors: map<string, Editor>,
                       madeAt: map<string, nat>, editor: Editor, trace: seq<Call>)
    returns (err: Option<EditError>, trace': seq<Call>)
    requires r < |results|
    requires results[r].externalSecret.backendType in editors
    requires editors[results[r].externalSecret.backendType] == editor
    requires Progress(env, trace, editors, madeAt)
    requires Handled(env, trace, Done(results, r, 0), editors)
    ensures err.None? ==>
      && Progress(env, trace', editors, madeAt)
      && Handled(env, trace', Done(results, r, |results[r].entryErrors|), editors)
    ensures err.Some? ==>
      && Stopped(env, trace', editors, madeAt)
      && StoppedAt(env, trace', Entries(results), err.value, editors)
      && ErrorOfLast(env, trace', Entries(results), err.value)
    ensures err.None? ==> trace' == trace + EntryTrails(env, editors, EntriesOf(results[r]))
    ensures err.Some? ==> trace <= trace' && trace' <= trace + EntryTrails(env, editors, EntriesOf(results[r]))
  {
    var res := results[r];
    trace' := trace;
    assert EntriesOf(res)[..0] == [];
    assert trace' == trace + EntryTrails(env, editors, EntriesOf(res)[..0]);
    var k := 0;
    while k < |res.entryErrors|
      invariant 0 <= k <= |res.entryErrors|
      invariant Progress(env, trace', editors, madeAt)
      invariant Handled(env, trace', Done(results, r, k), editors)
      invariant trace' == trace + EntryTrails(env, editors, EntriesOf(res)[..k])
    {
      ghost var before := trace';
      err, trace' := HandleNext(env, results, r, k, editors, madeAt, editor, trace');
      EntryTrailsStep(env, editors, res, k, trace, before, trace');
      if err.Some? {
        EntriesPartial(env, editors, EntriesOf(res), k + 1, trace, trace');
        return;
      }
      k := k + 1;
    }
    EntriesPartial(env, editors, EntriesOf(res), k, trace, trace');
    err := None;
  }

  /** What `HandleEntry` appends is the entry's expected trail. */
  lemma EntryTrailAppended(env: Collaborators, editors: map<string, Editor>, editor: Editor, x: Entry,
                           trace: seq<Call>, t': seq<Call>)
    requires x.secret.backendType in editors && editors[x.secret.backendType] == editor
    requires Answered(env, x) ==>
      t' == trace + AskTrail(env, x)
            + [Write(x.secret.backendType, editor, Batch(env, x), env.write(editor, Batch(env, x)))]
    requires !Answered(env, x) ==> t' == trace + AskTrail(env, x)
    ensures t' == trace + EntryTrail(env, editors, x)
  {
  }

  /** Handling the `k`-th entry of secret `res` extends the trail of its first
      `k` entries to that of its first `k + 1`. */
  lemma EntryTrailsStep(env: Collaborators, editors: map<string, Editor>, res: SecretError, k: nat,
                        started: seq<Call>, before: seq<Call>, after: seq<Call>)
    requires k < |res.entryErrors|
    requires before == started + EntryTrails(env, editors, EntriesOf(res)[..k])
    requires after == before + EntryTrail(env, editors, Entry(res.externalSecret, res.entryErrors[k]))
    ensures after == started + EntryTrails(env, editors, EntriesOf(res)[..k + 1])
  {
    var es := EntriesOf(res)[..k + 1];
    TakeTake(EntriesOf(res), k, k + 1);
    assert es[k] == Entry(res.externalSecret, res.entryErrors[k]);
    assert EntryTrails(env, editors, es) == EntryTrails(env, editors, es[..k]) + EntryTrail(env, editors, es[k]);
    AppendAssoc(started, EntryTrails(env, editors, es[..k]), EntryTrail(env, editors, es[k]));
  }

  /** A trace that has made the first `m` entries' calls after `trace` has
      made a prefix of the calls of all of them, and all of them once `m`
      covers every entry. */
  lemma EntriesPartial(env: Collaborators, editors: map<string, Editor>, es: seq<Entry>, m: nat,
                       trace: seq<Call>, t': seq<Call>)
    requires m <= |es|
    requires t' == trace + EntryTrails(env, editors, es[..m])
    ensures trace <= t' && t' <= trace + EntryTrails(env, editors, es)
    ensures m == |es| ==> t' == trace + EntryTrails(env, editors, es)
  {
    EntryTrailsPrefix(env, editors, es, m);
    PrefixWithin(trace, EntryTrails(env, editors, es[..m]), EntryTrails(env, editors, es));
    if m == |es| {
      TakeWhole(es);
    }
  }

  /** A secret stopped after its factory call, or within its entries, has made
      a prefix of its expected calls. */
  lemma SecretPartial(env: Collaborators, results: seq<SecretError>, r: nat, trace: seq<Call>,
                      started: seq<Call>, t': seq<Call>)
    requires r < |results|
    requires started == trace + FactoryCalls(env, Built(env, results, r), results[r].externalSecret)
    requires started <= t'
    requires t' <= started + EntryTrails(env, Built(env, results, r + 1), EntriesOf(results[r]))
    ensures trace <= t' && t' <= trace + SecretTrail(env, results, r)
  {
    var made := FactoryCalls(env, Built(env, results, r), results[r].externalSecret);
    var all := EntryTrails(env, Built(env, results, r + 1), EntriesOf(results[r]));
    assert SecretTrail(env, results, r) == made + all;
    PrefixSelf(made + all);
    PrefixBetween(trace, made, all, made + all, t');
  }

  /** A secret whose entries were all handled made all its expected calls. */
  lemma SecretWhole(env: Collaborators, results: seq<SecretError>, r: nat, trace: seq<Call>,
                    started: seq<Call>, t': seq<Call>)
    requires r < |results|
    requires started == trace + FactoryCalls(env, Built(env, results, r), results[r].externalSecret)
    requires t' == started + EntryTrails(env, Built(env, results, r + 1), EntriesOf(results[r]))
    ensures t' == trace + SecretTrail(env, results, r)
  {
    var made := FactoryCalls(env, Built(env, results, r), results[r].externalSecret);
    var all := EntryTrails(env, Built(env, results, r + 1), EntriesOf(results[r]));
    assert SecretTrail(env, results, r) == made + all;
    AppendAssoc(trace, made, all);
  }

  /** The calls of the first `r` secrets followed by those of secret `r` come
      first among the calls expected for all secrets. */
  lemma SecretsBound(env: Collaborators, results: seq<SecretError>, r: nat)
    requires r < |results|
    ensures SecretTrails(env, results, r) + SecretTrail(env, results, r) <= SecretTrails(env, results, |results|)
  {
    SecretTrailsNext(env, results, r);
    SecretTrailsPrefix(env, results, r + 1, |results|);
  }

  /** Handling secret `r` in full extends the calls of the first `r` secrets
      to those of the first `r + 1`. */
  lemma SecretsStep(env: Collaborators, results: seq<SecretError>, r: nat, trace: seq<Call>,
                    before: seq<Call>, after: seq<Call>)
    requires r < |results|
    requires before == trace + SecretTrails(env, results, r)
    requires after == before + SecretTrail(env, results, r)
    ensures after == trace + SecretTrails(env, results, r + 1)
  {
    SecretTrailsNext(env, results, r);
    AppendAssoc(trace, SecretTrails(env, results, r), SecretTrail(env, results, r));
  }

  /** The factory facts of `EditorFor`, read as the reference factory calls and
      cache. */
  lemma FactoryStep(env: Collaborators, s: ExternalSecret, editors: map<string, Editor>, trace: seq<Call>,
                    err: Option<EditError>, editor: Editor, trace': seq<Call>, editors': map<string, Editor>)
    requires err.None? && s.backendType in editors ==> trace' == trace && editors' == editors
    requires s.backendType !in editors ==> trace' == trace + [NewEditor(s.backendType, s.name, env.newEditor(s))]
    requires err.None? && s.backendType !in editors ==>
      env.newEditor(s) == Success(editor) && editors' == editors[s.backendType := editor]
    requires err.Some? ==> s.backendType !in editors && editors' == editors && env.newEditor(s).Failure?
    ensures trace' == trace + FactoryCalls(env, editors, s)
    ensures editors' == Cache(env, editors, s)
  {
  }

  /** Handle the secrets in order, stopping at the first error. */
  method HandleAll(env: Collaborators, results: seq<SecretError>, trace: seq<Call>)
    returns (err: Option<EditError>, trace': seq<Call>, editors': map<string, Editor>,
             madeAt': map<string, nat>)
    requires Progress(env, trace, map[], map[])
    requires WriteCalls(trace) == [] && Questions(trace) == [] && Steps(trace) == []
    ensures err.None? ==>
      && Progress(env, trace', editors', madeAt')
      && Handled(env, trace', Entries(results), editors')
    ensures err.Some? ==>
      && Stopped(env, trace', editors', madeAt')
      && StoppedAt(env, trace', Entries(results), err.value, editors')
      && ErrorOfLast(env, trace', Entries(results), err.value)
    ensures err.None? ==>
      && editors' == Built(env, results, |results|)
      && trace' == trace + SecretTrails(env, results, |results|)
    ensures err.Some? ==> trace <= trace' && trace' <= trace + SecretTrails(env, results, |results|)
  {
    trace', editors', madeAt' := trace, map[], map[];
    assert results[..0] == [];
    var r := 0;
    while r < |results|
      invariant 0 <= r <= |results|
      invariant Progress(env, trace', editors', madeAt')
      invariant Handled(env, trace', Entries(results[..r]), editors')
      invariant editors' == Built(env, results, r)
      invariant trace' == trace + SecretTrails(env, results, r)
    {
      ghost var before := trace';
      err, trace', editors', madeAt' := HandleSecret(env, results, r, trace', editors', madeAt');
      if err.Some? {
        SecretsBound(env, results, r);
        PrefixBetween(trace, SecretTrails(env, results, r), SecretTrail(env, results, r),
                      SecretTrails(env, results, |results|), trace');
        return;
      }
      SecretsStep(env, results, r, trace, before, trace');
      r := r + 1;
    }
    assert results[..r] == results;
    err := None;
  }

  /** The command: verify, then for each secret get (or build once) the editor
      of its backend type and, for each missing key, ask every property in order
      and write the key's batch once. The first error ends the run. */
  method Run(verified: Result<seq<SecretError>, string>, env: Collaborators)
    returns (err: Option<EditError>, trace: seq<Call>, editors: map<string, Editor>)
    ensures verified.Failure? ==> err == Some(VerifyFailed(verified.error)) && trace == []
    ensures verified == Success([]) ==> err.None? && trace == []
    ensures verified.Success? && verified.value != [] ==>
      && |trace| > 0 && trace[0] == LoadSchema(env.loadSchema)
      && forall i :: 1 <= i < |trace| ==> !trace[i].LoadSchema?
    ensures verified.Success? && verified.value != [] && env.loadSchema.Fail? ==>
      err == Some(SchemaLoadFailed(env.loadSchema.error)) && trace == [LoadSchema(env.loadSchema)]
    ensures verified.Success? && verified.value != [] ==> trace <= RunTrail(env, verified.value)
    ensures verified.Success? && verified.value != [] && err.None? ==>
      && trace == RunTrail(env, verified.value)
      && editors == Built(env, verified.value, |verified.value|)
    ensures AllObserved(env, trace)
    ensures EditorsMemoized(trace, editors)
    ensures EditorsFromFactory(trace, editors)
    ensures EditorBeforeWrites(trace)
    ensures verified.Success? ==> (err.None? <==> NoFailures(trace))
    ensures verified.Success? && err.Some? ==>
      && |trace| > 0 && Failed(trace[|trace| - 1]) && NoFailures(trace[..|trace| - 1])
      && ErrorOfLast(env, trace, Entries(verified.value), err.value)
    ensures verified.Success? ==>
      var es := Entries(verified.value);
      var n := |WriteCalls(trace)|;
      && n <= |es|
      && WriteCalls(trace) == Batches(env, es[..n])
      && AllAnswered(env, es[..n])
    ensures verified.Success? && err.None? ==> |WriteCalls(trace)| == |Entries(verified.value)|
    ensures verified.Success? && (err.None? || !err.value.AskFailed?) ==>
      var es := Entries(verified.value);
      var n := |WriteCalls(trace)|;
      && n <= |es| && Questions(trace) == AllAskTrails(env, es[..n])
      && Steps(trace) == EntryTrails(env, editors, es[..n])
    ensures verified.Success? && err.Some? && err.value.AskFailed? ==>
      var es := Entries(verified.value);
      var n := |WriteCalls(trace)|;
      && n < |es|
      && !Answered(env, es[n])
      && err.value == AskFailed(es[n].entry.properties[FirstFailed(env, es[n])], es[n].entry.key,
                                es[n].secret.name, Question(env, es[n], FirstFailed(env, es[n])).answer.error)
      && Questions(trace) == AllAskTrails(env, es[..n]) + AskTrail(env, es[n])
      && Steps(trace) == EntryTrails(env, editors, es[..n]) + EntryTrail(env, editors, es[n])
  {
    editors := map[];
    trace := [];
    if verified.Failure? {
      err := Some(VerifyFailed(verified.error));
      return;
    }
    var results := verified.value;
    if |results| == 0 {
      err := None;
      return;
    }
    trace := [LoadSchema(env.loadSchema)];
    if env.loadSchema.Fail? {
      err := Some(SchemaLoadFailed(env.loadSchema.error));
      SchemaStopped(env, Entries(results));
      RunStopped(env, Entries(results), trace, editors, err.value);
      RunTrailStarts(env, results);
      return;
    }
    var madeAt;
    err, trace, editors, madeAt := HandleAll(env, results, trace);
    if err.Some? {
      StoppedMemoized(trace, editors, madeAt);
      RunStopped(env, Entries(results), trace, editors, err.value);
    } else {
      TrackedMemoized(trace, editors, madeAt);
      RunHandledAll(env, Entries(results), trace, editors);
    }
  }

  /** A failed schema load stops the run before any entry, with its error. */
  lemma SchemaStopped(env: Collaborators, es: seq<Entry>)
    requires env.loadSchema.Fail?
    ensures var t := [LoadSchema(env.loadSchema)];
      && StoppedAt(env, t, es, SchemaLoadFailed(env.loadSchema.error), map[])
      && ErrorOfLast(env, t, es, SchemaLoadFailed(env.loadSchema.error))
      && Failed(t[0]) && NoFailures(t[..0]) && !NoFailures(t) && AllObserved(env, t)
      && EditorsMemoized(t, map[]) && EditorsFromFactory(t, map[]) && EditorBeforeWrites(t)
  {
    var t := [LoadSchema(env.loadSchema)];
    assert [] + t == t;
    assert t[..0] == [];
    NotAStep([], t[0]);
  }

  /** Every run that reaches the schema load starts with it. */
  lemma RunTrailStarts(env: Collaborators, results: seq<SecretError>)
    ensures [LoadSchema(env.loadSchema)] <= RunTrail(env, results)
  {
  }

  /** What a stopped run has done, stated over all entries `es`. */
  lemma RunStopped(env: Collaborators, es: seq<Entry>, trace: seq<Call>, editors: map<string, Editor>,
                   err: EditError)
    requires StoppedAt(env, trace, es, err, editors)
    ensures var n := |WriteCalls(trace)|;
      && n <= |es|
      && WriteCalls(trace) == Batches(env, es[..n])
      && AllAnswered(env, es[..n])
    ensures !err.AskFailed? ==>
      var n := |WriteCalls(trace)|;
      && n <= |es| && Questions(trace) == AllAskTrails(env, es[..n])
      && Steps(trace) == EntryTrails(env, editors, es[..n])
    ensures err.AskFailed? ==>
      var n := |WriteCalls(trace)|;
      && n < |es|
      && !Answered(env, es[n])
      && err == AskFailed(es[n].entry.properties[FirstFailed(env, es[n])], es[n].entry.key,
                          es[n].secret.name, Question(env, es[n], FirstFailed(env, es[n])).answer.error)
      && Questions(trace) == AllAskTrails(env, es[..n]) + AskTrail(env, es[n])
      && Steps(trace) == EntryTrails(env, editors, es[..n]) + EntryTrail(env, editors, es[n])
  {
  }

  /** A run that handled every entry wrote each of them, in order. */
  lemma RunHandledAll(env: Collaborators, es: seq<Entry>, trace: seq<Call>, editors: map<string, Editor>)
    requires Handled(env, trace, es, editors)
    ensures var n := |WriteCalls(trace)|;
      && n == |es|
      && WriteCalls(trace) == Batches(env, es[..n])
      && AllAnswered(env, es[..n])
      && Questions(trace) == AllAskTrails(env, es[..n])
      && Steps(trace) == EntryTrails(env, editors, es[..n])
  {
    TakeWhole(es);
  }
}
