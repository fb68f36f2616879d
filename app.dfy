/**
 * `Ncio::App` (lib/ncio/app.rb): subcommand dispatch, the reset of the
 * application state, the memoised API object, and the `groups.map!` step of
 * `transform_groups`, which transforms every matching group of a backup in
 * place.
 *
 * Backup, restore and transform are actions whose effect is a parameter:
 * each either finishes or raises an exception, which `run` lets through.
 */
module Application {
  import opened Wrappers
  import opened Json
  import opened Transform
  import Api

  /** The parsed options `run` and `api` read; host and port are those of the `:uri` option. */
  datatype AppOptions = AppOptions(subcommand: Option<string>, groups: Value,
                                   api: Api.ApiOptions, apiHost: Value, apiPort: Value)

  datatype Action = BackupGroups | RestoreGroups | TransformGroups

  /** How an action ends: `None` when it finishes, otherwise the class of the exception it raises. */
  type Perform = Action -> Option<string>

  class App {
    var opts: AppOptions
    /** `@api`, built on first use. */
    var api: Api.V1?

    /** The memoised API, once built, is a consistent client for the current options. */
    ghost predicate Valid()
      reads this, api
      reads if api != null then {api.connection} + api.Footprint() else {}
    {
      api != null ==>
        && api.Valid()
        && api.opts == opts.api && api.host == opts.apiHost && api.port == opts.apiPort
    }

    /** `initialize`: options as parsed, then `reset!`. */
    constructor (parsed: AppOptions)
      ensures opts == parsed && api == null
      ensures Valid()
    {
      opts := parsed;
      api := null;
    }

    /** `reset!`: the options are parsed again and the memoised API is dropped. */
    method Reset(parsed: AppOptions)
      modifies this
      ensures opts == parsed && api == null
      ensures Valid()
    {
      opts := parsed;
      api := null;
    }

    /** `api`: one `Api::V1` for the current options, built on first use. */
    method GetApi() returns (a: Api.V1)
      requires Valid()
      modifies this
      ensures Valid() && a.Valid()
      ensures api == a && opts == old(opts)
      ensures old(api) != null ==> a == old(api)
      ensures old(api) == null ==>
        fresh(a) && a.opts == opts.api && a.host == opts.apiHost && a.port == opts.apiPort && a.connection == null
    {
      if api == null {
        api := new Api.V1(opts.api, opts.apiHost, opts.apiPort);
      }
      a := api;
    }

    /**
     * `run`: backup and restore run only when `opts[:groups]` is set,
     * transform always runs; each of the three exits with 0 unless its
     * action raises. Any other subcommand does nothing and yields `nil`.
     */
    method Run(perform: Perform) returns (ran: seq<Action>, status: Result<Option<int>, string>)
      ensures opts.subcommand == Some("backup") ==> ran == (if Truthy(opts.groups) then [BackupGroups] else [])
      ensures opts.subcommand == Some("restore") ==> ran == (if Truthy(opts.groups) then [RestoreGroups] else [])
      ensures opts.subcommand == Some("transform") ==> ran == [TransformGroups]
      ensures opts.subcommand !in {Some("backup"), Some("restore"), Some("transform")} ==>
        ran == [] && status == Ok(None)
      ensures status.Err? <==> |ran| == 1 && perform(ran[0]).Some?
      ensures status.Err? ==> status.error == perform(ran[0]).value
      ensures opts.subcommand in {Some("backup"), Some("restore"), Some("transform")} && status.Ok? ==>
        status.value == Some(0)
    {
      ran := [];
      match opts.subcommand {
        case Some("backup") =>
          if Truthy(opts.groups) {
            ran := [BackupGroups];
          }
        case Some("restore") =>
          if Truthy(opts.groups) {
            ran := [RestoreGroups];
          }
        case Some("transform") =>
          ran := [TransformGroups];
        case _ =>
          return [], Ok(None);
      }
      if |ran| == 1 && perform(ran[0]).Some? {
        return ran, Err(perform(ran[0]).value);
      }
      status := Ok(Some(0));
    }
  }

  /** The block of `groups.map!`: a matching group is transformed, any other kept. */
  function MapStep(group: Fields, matches: Matcher, lookup: Lookup): Result<Fields, Fault>
  {
    var matched :- GroupMatches(group, matches);
    if matched then TransformedGroup(group, matches, lookup) else Ok(group)
  }

  /** `groups.map!` over a whole backup, stopping at the first group that raises. */
  function TransformHierarchy(groups: seq<Fields>, matches: Matcher, lookup: Lookup): Result<seq<Fields>, Fault>
  {
    MapResult(groups, g => MapStep(g, matches, lookup))
  }

  /**
   * The transform succeeds iff every group's step does; it then keeps the
   * number and order of the groups, leaves every group that does not match
   * as it was and transforms every group that does.
   */
  lemma TransformHierarchyGroups(groups: seq<Fields>, matches: Matcher, lookup: Lookup)
    ensures TransformHierarchy(groups, matches, lookup).Ok?
        <==> forall i :: 0 <= i < |groups| ==> MapStep(groups[i], matches, lookup).Ok?
    ensures TransformHierarchy(groups, matches, lookup).Ok? ==>
      var out := TransformHierarchy(groups, matches, lookup).value;
      && |out| == |groups|
      && (forall i :: 0 <= i < |groups| && GroupMatches(groups[i], matches) == Ok(false) ==> out[i] == groups[i])
      && (forall i :: 0 <= i < |groups| && GroupMatches(groups[i], matches) == Ok(true) ==>
            TransformedGroup(groups[i], matches, lookup).Ok? &&
            out[i] == TransformedGroup(groups[i], matches, lookup).value)
  {
    var f := g => MapStep(g, matches, lookup);
    MapResultOk(groups, f);
    if TransformHierarchy(groups, matches, lookup).Ok? {
      MapResultValue(groups, f);
    }
  }

  /** A failed transform raises the exception of the first group whose step raises. */
  lemma TransformHierarchyFirstError(groups: seq<Fields>, matches: Matcher, lookup: Lookup)
    requires TransformHierarchy(groups, matches, lookup).Err?
    ensures exists k :: (0 <= k < |groups|
      && (forall j :: 0 <= j < k ==> MapStep(groups[j], matches, lookup).Ok?)
      && MapStep(groups[k], matches, lookup) == Err(TransformHierarchy(groups, matches, lookup).error))
  {
    MapResultFirstError(groups, g => MapStep(g, matches, lookup));
  }

  /**
   * With a settled identity-fallback map, the `map!` block applied to a group
   * it has already handled changes nothing: a transformed group keeps its
   * class names, so it still matches, and transforming it again is a no-op.
   */
  lemma MapStepIdempotent(group: Fields, matches: Matcher, m: map<string, string>)
    requires Settled(m) && HashesWellFormed(group)
    requires MapStep(group, matches, v => SmartGet(m, v)).Ok?
    ensures MapStep(MapStep(group, matches, v => SmartGet(m, v)).value, matches, v => SmartGet(m, v))
         == MapStep(group, matches, v => SmartGet(m, v))
  {
    var f := v => SmartGet(m, v);
    if GroupMatches(group, matches) == Ok(true) {
      var out := TransformedGroup(group, matches, f).value;
      TransformedGroupSpec(group, matches, f);
      var cs := Get(group, "classes").fields;
      var cs1 := Get(out, "classes").fields;
      assert Keys(cs1) == Keys(cs);
      var i :| 0 <= i < |cs| && matches(cs[i].0);
      assert cs1[i].0 == Keys(cs1)[i] == Keys(cs)[i] == cs[i].0;
      assert GroupMatches(out, matches) == Ok(true);
      TransformedGroupIdempotent(group, matches, m);
    }
  }

  /**
   * With a settled identity-fallback map and well-formed hashes, transforming
   * an already transformed backup gives it back unchanged.
   */
  lemma TransformHierarchyIdempotent(groups: seq<Fields>, matches: Matcher, m: map<string, string>)
    requires Settled(m) && forall i :: 0 <= i < |groups| ==> HashesWellFormed(groups[i])
    requires TransformHierarchy(groups, matches, v => SmartGet(m, v)).Ok?
    ensures TransformHierarchy(TransformHierarchy(groups, matches, v => SmartGet(m, v)).value, matches, v => SmartGet(m, v))
         == TransformHierarchy(groups, matches, v => SmartGet(m, v))
  {
    var step := g => MapStep(g, matches, v => SmartGet(m, v));
    MapResultValue(groups, step);
    var once := TransformHierarchy(groups, matches, v => SmartGet(m, v)).value;
    forall i | 0 <= i < |once| ensures step(once[i]) == Ok(once[i]) {
      MapStepIdempotent(groups[i], matches, m);
    }
    MapResultOk(once, step);
    MapResultValue(once, step);
    assert TransformHierarchy(once, matches, v => SmartGet(m, v)).value == once;
  }

  /** The parameters of every group object, in order. */
  function FieldsOf(groups: seq<Group>): (fs: seq<Fields>)
    reads groups
    ensures |fs| == |groups| && forall i :: 0 <= i < |groups| ==> fs[i] == groups[i].fields
  {
    if |groups| == 0 then [] else FieldsOf(groups[..|groups| - 1]) + [groups[|groups| - 1].fields]
  }

  /** Extending a successful prefix of the backup by one group applies that group's step. */
  lemma TransformHierarchyStep(groups: seq<Fields>, k: nat, matches: Matcher, lookup: Lookup)
    requires k < |groups| && TransformHierarchy(groups[..k], matches, lookup).Ok?
    ensures MapStep(groups[k], matches, lookup).Ok? ==>
      TransformHierarchy(groups[..k + 1], matches, lookup)
        == Ok(TransformHierarchy(groups[..k], matches, lookup).value + [MapStep(groups[k], matches, lookup).value])
    ensures MapStep(groups[k], matches, lookup).Err? ==>
      TransformHierarchy(groups, matches, lookup) == Err(MapStep(groups[k], matches, lookup).error)
  {
    var step := g => MapStep(g, matches, lookup);
    MapResultStep(groups, k, step);
    if MapStep(groups[k], matches, lookup).Err? {
      MapResultErrorStays(groups, k + 1, step);
    }
  }

  /** The block of `groups.map!` on one group object: `transform_group` changes it in place when it matches. */
  method MapOne(group: Group, matches: Matcher, lookup: Lookup) returns (r: Result<Group, Fault>)
    modifies group
    ensures r.Ok? <==> MapStep(old(group.fields), matches, lookup).Ok?
    ensures r.Ok? ==> r.value == group && group.fields == MapStep(old(group.fields), matches, lookup).value
    ensures r.Err? ==> r.error == MapStep(old(group.fields), matches, lookup).error
  {
    var matched := GroupMatches(group.fields, matches);
    if matched.Err? {
      return Err(matched.error);
    }
    if matched.value {
      r := TransformGroup(group, matches, lookup);
    } else {
      r := Ok(group);
    }
  }

  /**
   * The in-place `map!` of `transform_groups`: every slot of the array keeps
   * its group object, each object ends up holding its entry of
   * `TransformHierarchy`, and the first exception is raised.
   */
  method MapGroups(groups: array<Group>, matches: Matcher, lookup: Lookup) returns (r: Result<(), Fault>)
    requires forall i, j :: 0 <= i < j < groups.Length ==> groups[i] != groups[j]
    modifies groups, set i | 0 <= i < groups.Length :: groups[i]
    ensures groups[..] == old(groups[..])
    ensures r.Ok? <==> TransformHierarchy(old(FieldsOf(groups[..])), matches, lookup).Ok?
    ensures r.Ok? ==> FieldsOf(groups[..]) == TransformHierarchy(old(FieldsOf(groups[..])), matches, lookup).value
    ensures r.Err? ==> r.error == TransformHierarchy(old(FieldsOf(groups[..])), matches, lookup).error
  {
    ghost var orig := FieldsOf(groups[..]);
    ghost var done: seq<Fields> := [];
    var i := 0;
    while i < groups.Length
      invariant 0 <= i <= groups.Length
      invariant groups[..] == old(groups[..])
      invariant forall j :: i <= j < groups.Length ==> groups[j].fields == orig[j]
      invariant |done| == i && forall j :: 0 <= j < i ==> groups[j].fields == done[j]
      invariant TransformHierarchy(orig[..i], matches, lookup) == Ok(done)
    {
      var group := groups[i];
      TransformHierarchyStep(orig, i, matches, lookup);
      var mapped := MapOne(group, matches, lookup);
      if mapped.Err? {
        return Err(mapped.error);
      }
      groups[i] := mapped.value;
      done := done + [group.fields];
      i := i + 1;
    }
    assert orig[..i] == orig;
    assert FieldsOf(groups[..]) == done;
    r := Ok(());
  }
}
