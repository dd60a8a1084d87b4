/** The parts of `EvaluateTemplate` around the template engine: parsing order,
    the lazily loaded and cached requirements, and the `storage` placeholder. */
module Evaluate {
  import opened Wrappers

  /** A decoded requirements value, as produced by converting the requirements
      to a generic map: nil, a scalar, a nested map or a list. Numbers and
      booleans are folded into `Text`; the evaluator itself only tells nil from
      non-nil. */
  datatype Value = Null | Text(text: string) | Object(fields: map<string, Value>) | List(items: seq<Value>)

  /** The requirements configuration as loaded from its file; its content is
      only reached through the `toMap` conversion. */
  datatype Requirements = Requirements(fields: map<string, Value>)

  /** The evaluator's state: the directory requirements are loaded from and the
      requirements cached by an earlier evaluation, if any. */
  datatype Options = Options(dir: string, requirements: Option<Requirements>)

  datatype TemplateError =
    | ParseFailed(secretName: string, property: string, templateText: string, cause: string)
    | LoadFailed(dir: string, cause: string)
    | ToMapFailed(requirements: Requirements, cause: string)
    | ExecFailed(secretName: string, property: string, cause: string)

  /** The template engine and the requirements conversion, as oracles: `parse`
      yields `Some(cause)` when the text does not parse. */
  datatype Engine = Engine(
    parse: string -> Option<string>,
    toMap: Requirements -> Result<map<string, Value>, string>,
    execute: (string, map<string, Value>) -> Result<string, string>)

  const StorageKey := "storage"
  const RequirementsKey := "Requirements"

  /** The outcome of consulting the requirements cache: the requirements or the
      load error, the new state, and whether the loader was called. */
  datatype Cached = Cached(requirements: Result<Requirements, TemplateError>, options: Options,
                           loaded: bool)

  /** Load the requirements only when none are cached, and cache them only when
      the load succeeds. `load` is what the loader would return. */
  function EnsureRequirements(opts: Options, load: Result<Requirements, string>): (c: Cached)
    ensures c.loaded <==> opts.requirements.None?
    ensures c.options.dir == opts.dir
    ensures opts.requirements.Some? ==> c.options == opts
    ensures c.requirements.Success? <==> c.options.requirements.Some?
    ensures c.requirements.Success? ==> c.options.requirements == Some(c.requirements.value)
    ensures c.loaded ==> (c.requirements.Success? <==> load.Success?)
    ensures c.loaded && load.Success? ==> c.requirements.value == load.value
    ensures c.loaded && load.Failure? ==> c.requirements == Failure(LoadFailed(opts.dir, load.error))
  {
    match opts.requirements
    case Some(req) => Cached(Success(req), opts, false)
    case None =>
      match load
      case Failure(cause) => Cached(Failure(LoadFailed(opts.dir, cause)), opts, true)
      case Success(req) => Cached(Success(req), opts.(requirements := Some(req)), true)
  }

  /** Give the map a non-nil `storage` entry if it lacks one; nothing else changes. */
  function WithStorage(m: map<string, Value>): (m': map<string, Value>)
    ensures StorageKey in m' && m'[StorageKey] != Null
    ensures m'.Keys == m.Keys + {StorageKey}
    ensures forall k :: k in m && k != StorageKey ==> m'[k] == m[k]
    ensures StorageKey in m && m[StorageKey] != Null ==> m' == m
    ensures StorageKey !in m || m[StorageKey] == Null ==> m'[StorageKey] == Object(map[])
  {
    if StorageKey !in m || m[StorageKey] == Null then m[StorageKey := Object(map[])] else m
  }

  /** Injecting the placeholder twice is the same as injecting it once. */
  lemma WithStorageIdempotent(m: map<string, Value>)
    ensures WithStorage(WithStorage(m)) == WithStorage(m)
  {
    var once := WithStorage(m);
    assert StorageKey in once && once[StorageKey] != Null;
  }

  /** The data the template is executed against: the requirements map, with the
      `storage` placeholder, under the `Requirements` key. */
  function TemplateData(requirementsMap: map<string, Value>): (d: map<string, Value>)
    ensures d.Keys == {RequirementsKey}
    ensures d[RequirementsKey].Object?
    ensures StorageKey in d[RequirementsKey].fields && d[RequirementsKey].fields[StorageKey] != Null
    ensures d[RequirementsKey].fields.Keys == requirementsMap.Keys + {StorageKey}
    ensures forall k :: k in requirementsMap && k != StorageKey ==>
      d[RequirementsKey].fields[k] == requirementsMap[k]
    ensures StorageKey in requirementsMap && requirementsMap[StorageKey] != Null ==>
      d[RequirementsKey].fields[StorageKey] == requirementsMap[StorageKey]
  {
    map[RequirementsKey := Object(WithStorage(requirementsMap))]
  }

  /** The result of one evaluation and the evaluator state after it. */
  datatype Evaluated = Evaluated(result: Result<string, TemplateError>, options: Options,
                                 loaded: bool)

  /** Parse the template, then obtain the requirements (from the cache or the
      loader), convert them, inject `storage` and execute. Every error stops the
      evaluation; a parse error stops it before the loader is considered. */
  function EvaluateTemplate(opts: Options, engine: Engine, load: Result<Requirements, string>,
                            secretName: string, property: string, templateText: string): (e: Evaluated)
    ensures e.loaded <==> opts.requirements.None? && engine.parse(templateText).None?
    ensures e.loaded && load.Success? ==> e.options.requirements == Some(load.value)
    ensures opts.requirements.Some? ==> e.options == opts && !e.loaded
    ensures e.options.dir == opts.dir
    ensures engine.parse(templateText).Some? ==>
      e == Evaluated(Failure(ParseFailed(secretName, property, templateText,
                                         engine.parse(templateText).value)), opts, false)
    ensures e.options.requirements.None? ==> e.result.Failure?
    ensures e.options.requirements.Some? ==>
      opts.requirements.Some? || (e.loaded && load == Success(e.options.requirements.value))
    ensures e.loaded && load.Failure? ==>
      e.result == Failure(LoadFailed(opts.dir, load.error)) && e.options == opts
    ensures e.result.Success? ==>
      && e.options.requirements.Some?
      && engine.toMap(e.options.requirements.value).Success?
      && engine.execute(templateText, TemplateData(engine.toMap(e.options.requirements.value).value))
         == Success(e.result.value)
    ensures engine.parse(templateText).None? && EnsureRequirements(opts, load).requirements.Success? ==>
      var req := EnsureRequirements(opts, load).requirements.value;
      var m := engine.toMap(req);
      && (m.Failure? ==> e.result == Failure(ToMapFailed(req, m.error)))
      && (m.Success? && engine.execute(templateText, TemplateData(m.value)).Failure? ==>
            e.result == Failure(ExecFailed(secretName, property,
                                           engine.execute(templateText, TemplateData(m.value)).error)))
      && (m.Success? && engine.execute(templateText, TemplateData(m.value)).Success? ==>
            e.result == Success(engine.execute(templateText, TemplateData(m.value)).value))
  {
    match engine.parse(templateText)
    case Some(cause) => Evaluated(Failure(ParseFailed(secretName, property, templateText, cause)), opts, false)
    case None =>
      var c := EnsureRequirements(opts, load);
      match c.requirements
      case Failure(err) => Evaluated(Failure(err), c.options, c.loaded)
      case Success(req) =>
        match engine.toMap(req)
        case Failure(cause) => Evaluated(Failure(ToMapFailed(req, cause)), c.options, c.loaded)
        case Success(m) =>
          match engine.execute(templateText, TemplateData(m))
          case Failure(err) => Evaluated(Failure(ExecFailed(secretName, property, err)), c.options, c.loaded)
          case Success(out) => Evaluated(Success(out), c.options, c.loaded)
  }

  /** One call of the evaluator within a run: what to evaluate and what the
      requirements loader would return if it were called. */
  datatype Request = Request(secretName: string, property: string, templateText: string,
                             load: Result<Requirements, string>)

  /** The state after evaluating `reqs` in order from `opts`. */
  function FinalOptions(opts: Options, engine: Engine, reqs: seq<Request>): Options
    decreases |reqs|
  {
    if |reqs| == 0 then opts
    else
      var e := EvaluateTemplate(opts, engine, reqs[0].load, reqs[0].secretName,
                                reqs[0].property, reqs[0].templateText);
      FinalOptions(e.options, engine, reqs[1..])
  }

  /** How many times the requirements loader succeeds while evaluating `reqs` in
      order from `opts`. */
  function SuccessfulLoads(opts: Options, engine: Engine, reqs: seq<Request>): nat
    decreases |reqs|
  {
    if |reqs| == 0 then 0
    else
      var e := EvaluateTemplate(opts, engine, reqs[0].load, reqs[0].secretName,
                                reqs[0].property, reqs[0].templateText);
      (if e.loaded && reqs[0].load.Success? then 1 else 0)
      + SuccessfulLoads(e.options, engine, reqs[1..])
  }

  /** Once requirements are cached, no later evaluation loads them again and the
      cache keeps its value. */
  lemma {:induction false} CachedNeverReloads(opts: Options, engine: Engine, reqs: seq<Request>)
    requires opts.requirements.Some?
    ensures SuccessfulLoads(opts, engine, reqs) == 0
    ensures FinalOptions(opts, engine, reqs) == opts
    decreases |reqs|
  {
    if |reqs| > 0 {
      CachedNeverReloads(opts, engine, reqs[1..]);
    }
  }

  /** Over any run of evaluations the requirements are read successfully at most
      once, and a run that ends without cached requirements never read them. */
  lemma {:induction false} LoadedAtMostOnce(opts: Options, engine: Engine, reqs: seq<Request>)
    ensures SuccessfulLoads(opts, engine, reqs) <= 1
    ensures FinalOptions(opts, engine, reqs).requirements.None? ==>
      SuccessfulLoads(opts, engine, reqs) == 0
    ensures opts.requirements.Some? ==> SuccessfulLoads(opts, engine, reqs) == 0
    decreases |reqs|
  {
    if |reqs| > 0 {
      var e := EvaluateTemplate(opts, engine, reqs[0].load, reqs[0].secretName,
                                reqs[0].property, reqs[0].templateText);
      if e.options.requirements.Some? {
        CachedNeverReloads(e.options, engine, reqs[1..]);
      } else {
        LoadedAtMostOnce(e.options, engine, reqs[1..]);
      }
    }
  }
}
