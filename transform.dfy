/**
 * The hostname-rewrite transform of a backed-up classification hierarchy
 * (lib/ncio/support/transform.rb). A group is a Ruby Hash; the group's own
 * hash is updated in place, everything nested in it is rebuilt as new values.
 */
module Transform {
  import opened Wrappers
  import opened Json

  /** `opts[:hostname_map][v]`: the hostname map applied to any value. */
  type Lookup = Value -> Value

  /** `opts[:matcher].match(name)`, read as a truth value. */
  type Matcher = string -> bool

  /** Exceptions the transform raises on data of an unexpected shape. */
  datatype Fault =
    | UndefinedMethod(receiver: Value, selector: string)  // NoMethodError: e.g. `nil.keys`, `5.map`
    | ArrayAsHash(receiver: Value)  // parameters given as an array: Ruby builds a hash keyed by
                                    // its elements, which this model does not represent

  type Fields = seq<(string, Value)>

  /** `group_matches?`: some class name of `group['classes']` satisfies the matcher. */
  function GroupMatches(group: Fields, matches: Matcher): (r: Result<bool, Fault>)
    ensures r.Ok? <==> Get(group, "classes").Obj?
    ensures r.Ok? ==>
      (r.value <==> exists i :: 0 <= i < |Get(group, "classes").fields| && matches(Get(group, "classes").fields[i].0))
  {
    match Get(group, "classes")
    case Obj(classes) =>
      var found := FirstIndex(Keys(classes), matches);
      assert found.Some? ==> matches(classes[found.value].0);
      Ok(found.Some?)
    case other => Err(UndefinedMethod(other, "keys"))
  }

  // ---------------------------------------------------------------- rules

  /**
   * One element of a rule tree as the block of `transform_rules` maps it: a
   * nested array is rewritten recursively, a string goes through the hostname
   * map, anything else becomes `nil` (the `case` has no `else`).
   */
  function RewriteRule(rule: Value, lookup: Lookup): Value
    decreases rule
  {
    match rule
    case Arr(items) => Arr(seq(|items|, i requires 0 <= i < |items| => RewriteRule(items[i], lookup)))
    case Str(_) => lookup(rule)
    case _ => Null
  }

  /** `transform_rules(rules)` for an array of rules. */
  function TransformRules(rules: seq<Value>, lookup: Lookup): seq<Value>
  {
    seq(|rules|, i requires 0 <= i < |rules| => RewriteRule(rules[i], lookup))
  }

  /**
   * `transform_rules(group['rule'])` for whatever the group holds there:
   * `map` over an array, over a hash (whose elements are `[key, value]`
   * pairs), and `NoMethodError` for a scalar.
   */
  function TransformRuleField(rule: Value, lookup: Lookup): (r: Result<Value, Fault>)
    ensures r.Ok? <==> rule.Arr? || rule.Obj?
    ensures r.Err? ==> r.error == UndefinedMethod(rule, "map")
    ensures rule.Arr? ==> r.value == Arr(TransformRules(rule.items, lookup))
    ensures rule.Obj? ==>
      r.value.Arr? && |r.value.items| == |rule.fields| &&
      forall i :: 0 <= i < |rule.fields| ==>
        r.value.items[i] == Arr([lookup(Str(rule.fields[i].0)), RewriteRule(rule.fields[i].1, lookup)])
  {
    match rule
    case Arr(items) => Ok(Arr(TransformRules(items, lookup)))
    case Obj(fields) =>
      PairsRewritten(fields, lookup);
      Ok(Arr(seq(|fields|, i requires 0 <= i < |fields| => RewriteRule(Arr([Str(fields[i].0), fields[i].1]), lookup))))
    case _ => Err(UndefinedMethod(rule, "map"))
  }

  /** Mapping a hash yields `[key, value]` pairs: the key goes through the map, the value is rewritten as a rule. */
  lemma PairsRewritten(fields: Fields, lookup: Lookup)
    ensures forall i :: 0 <= i < |fields| ==>
      RewriteRule(Arr([Str(fields[i].0), fields[i].1]), lookup)
        == Arr([lookup(Str(fields[i].0)), RewriteRule(fields[i].1, lookup)])
  {
    forall i | 0 <= i < |fields|
      ensures RewriteRule(Arr([Str(fields[i].0), fields[i].1]), lookup)
           == Arr([lookup(Str(fields[i].0)), RewriteRule(fields[i].1, lookup)])
    {
      var pair := [Str(fields[i].0), fields[i].1];
      assert RewriteRule(Arr(pair), lookup).items == [lookup(Str(fields[i].0)), RewriteRule(fields[i].1, lookup)];
    }
  }

  /** The node reached from `v` by following the array indices in `path`. */
  function At(v: Value, path: seq<nat>): Option<Value>
    decreases |path|
  {
    if |path| == 0 then Some(v)
    else match v
      case Arr(items) => if path[0] < |items| then At(items[path[0]], path[1..]) else None
      case _ => None
  }

  /**
   * Every position of a rule tree survives the rewrite: an array stays an
   * array of the same length, a string leaf becomes its map lookup, and any
   * other leaf becomes `nil`.
   */
  lemma {:induction false} RewriteRuleAt(rule: Value, lookup: Lookup, path: seq<nat>)
    requires At(rule, path).Some?
    ensures At(RewriteRule(rule, lookup), path).Some?
    ensures At(rule, path).value.Arr? ==>
      At(RewriteRule(rule, lookup), path).value.Arr? &&
      |At(RewriteRule(rule, lookup), path).value.items| == |At(rule, path).value.items|
    ensures At(rule, path).value.Str? ==>
      At(RewriteRule(rule, lookup), path).value == lookup(At(rule, path).value)
    ensures !At(rule, path).value.Arr? && !At(rule, path).value.Str? ==>
      At(RewriteRule(rule, lookup), path).value == Null
    decreases |path|
  {
    if |path| > 0 {
      var k := path[0];
      var items := rule.items;
      assert At(rule, path) == At(items[k], path[1..]);
      RewriteRuleAt(items[k], lookup, path[1..]);
    }
  }

  /** `transform_rules` keeps the length of the rule array and rewrites element by element. */
  lemma {:induction false} TransformRulesShape(rules: seq<Value>, lookup: Lookup)
    ensures |TransformRules(rules, lookup)| == |rules|
    ensures forall i :: 0 <= i < |rules| && rules[i].Str? ==> TransformRules(rules, lookup)[i] == lookup(rules[i])
    ensures forall i :: 0 <= i < |rules| && !rules[i].Str? && !rules[i].Arr? ==> TransformRules(rules, lookup)[i] == Null
    ensures forall i :: 0 <= i < |rules| && rules[i].Arr? ==>
      TransformRules(rules, lookup)[i] == Arr(TransformRules(rules[i].items, lookup)) &&
      |TransformRules(rules[i].items, lookup)| == |rules[i].items|
  {
  }

  // ------------------------------------------------ the identity-fallback map

  /**
   * The "smart map" named in the comment at transform.rb:58-59: a key of `m`
   * maps to its entry, any other value to itself. No file of the repository
   * modelled here builds it, so every result below that needs it takes it as
   * an explicit hypothesis by using this lookup.
   */
  function SmartGet(m: map<string, string>, v: Value): (r: Value)
    ensures v.Str? && v.s in m ==> r == Str(m[v.s])
    ensures !(v.Str? && v.s in m) ==> r == v
  {
    match v
    case Str(s) => if s in m then Str(m[s]) else v
    case _ => v
  }

  /** No entry of `m` leads to a key whose entry differs (no chains of renames). */
  predicate Settled(m: map<string, string>) {
    forall k :: k in m && m[k] in m ==> m[m[k]] == m[k]
  }

  /** A rule tree all of whose leaves are strings no entry of `m` renames. */
  predicate Unmapped(rule: Value, m: map<string, string>)
    decreases rule
  {
    match rule
    case Arr(items) => forall i :: 0 <= i < |items| ==> Unmapped(items[i], m)
    case Str(s) => s !in m || m[s] == s
    case _ => false
  }

  /** Identity law: a tree whose leaves are all unmapped strings comes back unchanged. */
  lemma {:induction false} RewriteRuleIdentity(rule: Value, m: map<string, string>)
    requires Unmapped(rule, m)
    ensures RewriteRule(rule, v => SmartGet(m, v)) == rule
    decreases rule
  {
    match rule
    case Arr(items) =>
      var out := RewriteRule(rule, v => SmartGet(m, v)).items;
      forall i | 0 <= i < |items| ensures out[i] == items[i] {
        RewriteRuleIdentity(items[i], m);
      }
      assert out == items;
    case Str(s) =>
  }

  /** With a settled map, rewriting an already rewritten rule tree changes nothing. */
  lemma {:induction false} RewriteRuleIdempotent(rule: Value, m: map<string, string>)
    requires Settled(m)
    ensures RewriteRule(RewriteRule(rule, v => SmartGet(m, v)), v => SmartGet(m, v))
         == RewriteRule(rule, v => SmartGet(m, v))
    decreases rule
  {
    var f := v => SmartGet(m, v);
    match rule
    case Arr(items) =>
      var once := RewriteRule(rule, f).items;
      var twice := RewriteRule(RewriteRule(rule, f), f).items;
      forall i | 0 <= i < |items| ensures twice[i] == once[i] {
        RewriteRuleIdempotent(items[i], m);
      }
      assert twice == once;
    case Str(s) =>
    case _ =>
  }

  /** With a settled map, `transform_rules` applied to a rewritten rule field returns it unchanged. */
  lemma TransformRuleFieldIdempotent(rule: Value, m: map<string, string>)
    requires Settled(m) && (rule.Arr? || rule.Obj?)
    ensures TransformRuleField(TransformRuleField(rule, v => SmartGet(m, v)).value, v => SmartGet(m, v))
         == TransformRuleField(rule, v => SmartGet(m, v))
  {
    var f := v => SmartGet(m, v);
    var once := TransformRuleField(rule, f).value.items;
    var twice := TransformRuleField(TransformRuleField(rule, f).value, f).value.items;
    forall i | 0 <= i < |once| ensures twice[i] == once[i] {
      match rule
      case Arr(items) =>
        RewriteRuleIdempotent(items[i], m);
      case Obj(fields) =>
        RewriteRuleIdempotent(Arr([Str(fields[i].0), fields[i].1]), m);
    }
    assert twice == once;
  }

  // ---------------------------------------------------------- parameters

  /** The value a class parameter becomes in `transform_params`. */
  function RewriteParam(val: Value, lookup: Lookup): Value
  {
    match val
    case Arr(items) => Arr(seq(|items|, i requires 0 <= i < |items| => lookup(items[i])))
    case Str(_) => lookup(val)
    case _ => val
  }

  /** One pair of `transform_params`: the key keeps its rewritten value; this never raises. */
  function ParamEntry(entry: (string, Value), lookup: Lookup): Result<Value, Fault>
  {
    Ok(RewriteParam(entry.1, lookup))
  }

  /** `transform_params(params)`: a fresh hash built from the parameters hash. */
  function TransformParams(params: Value, lookup: Lookup): (r: Result<Value, Fault>)
    ensures r.Ok? <==> params.Obj?
    ensures r.Ok? ==> r.value.Obj?
    ensures params.Arr? ==> r == Err(ArrayAsHash(params))
    ensures !params.Obj? && !params.Arr? ==> r == Err(UndefinedMethod(params, "each_with_object"))
  {
    match params
    case Obj(pairs) =>
      var f := e => ParamEntry(e, lookup);
      BuildHashOk(pairs, f);
      Ok(Obj(BuildHash(pairs, f).value))
    case Arr(_) => Err(ArrayAsHash(params))
    case _ => Err(UndefinedMethod(params, "each_with_object"))
  }

  /**
   * `transform_params` returns a hash with exactly the input's keys in the
   * same order; a string value becomes its lookup, an array is looked up
   * element by element with its length kept, any other value is unchanged.
   */
  lemma TransformParamsSpec(params: Value, lookup: Lookup)
    requires params.Obj? && UniqueKeys(params.fields)
    ensures TransformParams(params, lookup).Ok?
    ensures TransformParams(params, lookup).value.Obj?
    ensures Keys(TransformParams(params, lookup).value.fields) == Keys(params.fields)
    ensures forall i :: 0 <= i < |params.fields| ==>
      var (val, out) := (params.fields[i].1, TransformParams(params, lookup).value.fields[i].1);
      && (val.Str? ==> out == lookup(val))
      && (val.Arr? ==> out.Arr? && |out.items| == |val.items| &&
                       forall j :: 0 <= j < |val.items| ==> out.items[j] == lookup(val.items[j]))
      && (!val.Str? && !val.Arr? ==> out == val)
  {
    var f := e => ParamEntry(e, lookup);
    BuildHashOk(params.fields, f);
    BuildHashSpec(params.fields, f);
  }

  /** With a settled map, looking a value up a second time changes nothing. */
  lemma SmartGetIdempotent(m: map<string, string>, v: Value)
    requires Settled(m)
    ensures SmartGet(m, SmartGet(m, v)) == SmartGet(m, v)
  {
  }

  /** With a settled map, rewriting an already rewritten parameter value changes nothing. */
  lemma RewriteParamIdempotent(val: Value, m: map<string, string>)
    requires Settled(m)
    ensures RewriteParam(RewriteParam(val, v => SmartGet(m, v)), v => SmartGet(m, v))
         == RewriteParam(val, v => SmartGet(m, v))
  {
    var f := v => SmartGet(m, v);
    match val
    case Arr(items) =>
      var once := RewriteParam(val, f).items;
      var twice := RewriteParam(RewriteParam(val, f), f).items;
      forall i | 0 <= i < |items| ensures twice[i] == once[i] {
        SmartGetIdempotent(m, items[i]);
      }
      assert twice == once;
    case Str(_) =>
      SmartGetIdempotent(m, val);
    case _ =>
  }

  /** The pairs of a rewritten parameters hash: each key with its rewritten value, in order. */
  lemma TransformParamsPairs(params: Value, lookup: Lookup)
    requires params.Obj? && UniqueKeys(params.fields)
    ensures |TransformParams(params, lookup).value.fields| == |params.fields|
    ensures forall i :: 0 <= i < |params.fields| ==>
      TransformParams(params, lookup).value.fields[i] == (params.fields[i].0, RewriteParam(params.fields[i].1, lookup))
  {
    var f := e => ParamEntry(e, lookup);
    BuildHashOk(params.fields, f);
    BuildHashSpec(params.fields, f);
  }

  /**
   * With a settled map, `transform_params` applied to its own result returns
   * that result: the parameter rewrite is idempotent.
   */
  lemma TransformParamsIdempotent(params: Value, m: map<string, string>)
    requires params.Obj? && UniqueKeys(params.fields) && Settled(m)
    ensures TransformParams(TransformParams(params, v => SmartGet(m, v)).value, v => SmartGet(m, v))
         == TransformParams(params, v => SmartGet(m, v))
  {
    var f := v => SmartGet(m, v);
    var once := TransformParams(params, f).value;
    TransformParamsPairs(params, f);
    assert UniqueKeys(once.fields) by {
      forall i, j | 0 <= i < j < |once.fields| ensures once.fields[i].0 != once.fields[j].0 {
        assert once.fields[i].0 == params.fields[i].0 && once.fields[j].0 == params.fields[j].0;
      }
    }
    TransformParamsPairs(once, f);
    var twice := TransformParams(once, f).value;
    forall i | 0 <= i < |once.fields| ensures twice.fields[i] == once.fields[i] {
      RewriteParamIdempotent(params.fields[i].1, m);
    }
    assert twice.fields == once.fields;
  }

  // -------------------------------------------------------------- classes

  /** The parameters one class entry gets in `transform_group`: rewritten when the class name matches. */
  function ClassEntry(entry: (string, Value), matches: Matcher, lookup: Lookup): Result<Value, Fault>
  {
    if matches(entry.0) then TransformParams(entry.1, lookup) else Ok(entry.1)
  }

  /** `classes.each_with_object({})`: matching classes get their parameters rewritten. */
  function RewriteClasses(classes: Fields, matches: Matcher, lookup: Lookup): Result<Fields, Fault>
  {
    BuildHash(classes, e => ClassEntry(e, matches, lookup))
  }

  /** `group['classes'].each_with_object({})` for whatever the group holds there. */
  function TransformClasses(classes: Value, matches: Matcher, lookup: Lookup): (r: Result<Value, Fault>)
    ensures r.Ok? <==>
      classes.Obj? && forall i :: 0 <= i < |classes.fields| ==> ClassEntry(classes.fields[i], matches, lookup).Ok?
    ensures r.Ok? ==> r.value.Obj?
    ensures classes.Arr? ==> r == Err(ArrayAsHash(classes))
    ensures !classes.Obj? && !classes.Arr? ==> r == Err(UndefinedMethod(classes, "each_with_object"))
  {
    match classes
    case Obj(cs) =>
      RewriteClassesOk(cs, matches, lookup);
      var r :- RewriteClasses(cs, matches, lookup);
      Ok(Obj(r))
    case Arr(_) => Err(ArrayAsHash(classes))
    case _ => Err(UndefinedMethod(classes, "each_with_object"))
  }

  /** Rewriting the classes hash succeeds iff every matching class's parameters can be rewritten. */
  lemma RewriteClassesOk(classes: Fields, matches: Matcher, lookup: Lookup)
    ensures RewriteClasses(classes, matches, lookup).Ok?
        <==> forall i :: 0 <= i < |classes| ==> ClassEntry(classes[i], matches, lookup).Ok?
  {
    BuildHashOk(classes, e => ClassEntry(e, matches, lookup));
  }

  /**
   * A successful rewrite of the classes hash keeps every class name in
   * place, rewrites the parameters of matching classes and keeps the others
   * as they were.
   */
  lemma RewriteClassesSpec(classes: Fields, matches: Matcher, lookup: Lookup)
    requires UniqueKeys(classes)
    requires RewriteClasses(classes, matches, lookup).Ok?
    ensures |RewriteClasses(classes, matches, lookup).value| == |classes|
    ensures forall i :: 0 <= i < |classes| ==>
      ClassEntry(classes[i], matches, lookup).Ok? &&
      RewriteClasses(classes, matches, lookup).value[i] == (classes[i].0, ClassEntry(classes[i], matches, lookup).value)
  {
    BuildHashSpec(classes, e => ClassEntry(e, matches, lookup));
  }

  // ---------------------------------------------------------------- groups

  /**
   * The group hash after the first step of `transform_group`: a truthy rule
   * is rewritten in its place, and nothing else changes.
   */
  function RuleStep(group: Fields, lookup: Lookup): (r: Result<Fields, Fault>)
    ensures r.Ok? <==> (Truthy(Get(group, "rule")) ==> TransformRuleField(Get(group, "rule"), lookup).Ok?)
    ensures !Truthy(Get(group, "rule")) ==> r == Ok(group)
    ensures r.Ok? && Truthy(Get(group, "rule")) ==>
      && Keys(r.value) == Keys(group)
      && Get(r.value, "rule") == TransformRuleField(Get(group, "rule"), lookup).value
      && forall i :: 0 <= i < |group| && group[i].0 != "rule" ==> r.value[i] == group[i]
  {
    var rule := Get(group, "rule");
    if Truthy(rule) then
      var r :- TransformRuleField(rule, lookup);
      PutSpec(group, "rule", r);
      Ok(Put(group, "rule", r))
    else Ok(group)
  }

  /** The contents `transform_group` leaves in the group hash. */
  function TransformedGroup(group: Fields, matches: Matcher, lookup: Lookup): Result<Fields, Fault>
  {
    var withRule :- RuleStep(group, lookup);
    var classes :- TransformClasses(Get(withRule, "classes"), matches, lookup);
    Ok(Put(withRule, "classes", classes))
  }

  /**
   * `transform_group` succeeds iff the rule (when truthy) and the classes
   * can be rewritten. It then keeps every key of the group in place, changes
   * no field but `'rule'` and `'classes'`, leaves an absent or `nil` rule
   * alone, and keeps every class name.
   */
  lemma TransformedGroupSpec(group: Fields, matches: Matcher, lookup: Lookup)
    requires UniqueKeys(group)
    ensures var rule := Get(group, "rule");
      TransformedGroup(group, matches, lookup).Ok? <==>
        (Truthy(rule) ==> TransformRuleField(rule, lookup).Ok?) &&
        TransformClasses(Get(group, "classes"), matches, lookup).Ok?
    ensures TransformedGroup(group, matches, lookup).Ok? ==>
      var out := TransformedGroup(group, matches, lookup).value;
      var rule := Get(group, "rule");
      && Keys(out) == Keys(group)
      && (forall i :: 0 <= i < |group| && group[i].0 != "rule" && group[i].0 != "classes" ==> out[i] == group[i])
      && Get(out, "rule") == (if Truthy(rule) then TransformRuleField(rule, lookup).value else rule)
      && Get(out, "classes") == TransformClasses(Get(group, "classes"), matches, lookup).value
      && (UniqueKeys(Get(group, "classes").fields) ==>
            Keys(Get(out, "classes").fields) == Keys(Get(group, "classes").fields) &&
            forall i :: 0 <= i < |Get(group, "classes").fields| && !matches(Get(group, "classes").fields[i].0) ==>
              Get(out, "classes").fields[i] == Get(group, "classes").fields[i])
  {
    var rule := Get(group, "rule");
    var step := RuleStep(group, lookup);
    if step.Ok? {
      if Truthy(rule) {
        PutSpec(group, "rule", TransformRuleField(rule, lookup).value);
      }
      GetAfterPut(group, "rule", if Truthy(rule) then TransformRuleField(rule, lookup).value else rule, "classes");
      assert Get(step.value, "classes") == Get(group, "classes");
      var cls := TransformClasses(Get(group, "classes"), matches, lookup);
      if cls.Ok? {
        var out := Put(step.value, "classes", cls.value);
        PutSpec(step.value, "classes", cls.value);
        GetAfterPut(step.value, "classes", cls.value, "rule");
        assert Get(group, "classes").Obj?;
        var cs := Get(group, "classes").fields;
        if UniqueKeys(cs) {
          RewriteClassesSpec(cs, matches, lookup);
          assert Keys(cls.value.fields) == Keys(cs);
        }
      }
    }
  }

  /** Every hash in a group's classes has distinct keys, as every Ruby Hash does. */
  predicate HashesWellFormed(group: Fields) {
    && UniqueKeys(group)
    && (Get(group, "classes").Obj? ==>
          var cs := Get(group, "classes").fields;
          && UniqueKeys(cs)
          && forall i :: 0 <= i < |cs| && cs[i].1.Obj? ==> UniqueKeys(cs[i].1.fields))
  }

  /** With a settled map, rewriting a rewritten classes hash changes nothing. */
  lemma TransformClassesIdempotent(cs: Fields, matches: Matcher, m: map<string, string>)
    requires Settled(m) && UniqueKeys(cs)
    requires forall i :: 0 <= i < |cs| && cs[i].1.Obj? ==> UniqueKeys(cs[i].1.fields)
    requires TransformClasses(Obj(cs), matches, v => SmartGet(m, v)).Ok?
    ensures TransformClasses(TransformClasses(Obj(cs), matches, v => SmartGet(m, v)).value, matches, v => SmartGet(m, v))
         == TransformClasses(Obj(cs), matches, v => SmartGet(m, v))
  {
    var f := v => SmartGet(m, v);
    RewriteClassesSpec(cs, matches, f);
    var once := RewriteClasses(cs, matches, f).value;
    assert UniqueKeys(once) by {
      forall i, j | 0 <= i < j < |once| ensures once[i].0 != once[j].0 {
        assert once[i].0 == cs[i].0 && once[j].0 == cs[j].0;
      }
    }
    forall i | 0 <= i < |once| ensures ClassEntry(once[i], matches, f) == Ok(once[i].1) {
      if matches(cs[i].0) {
        TransformParamsIdempotent(cs[i].1, m);
      }
    }
    RewriteClassesOk(once, matches, f);
    RewriteClassesSpec(once, matches, f);
    var twice := RewriteClasses(once, matches, f).value;
    assert twice == once;
  }

  /** With a settled map, the rule step applied to a transformed group changes nothing. */
  lemma RuleStepIdempotent(group: Fields, matches: Matcher, m: map<string, string>)
    requires Settled(m) && UniqueKeys(group)
    requires TransformedGroup(group, matches, v => SmartGet(m, v)).Ok?
    ensures RuleStep(TransformedGroup(group, matches, v => SmartGet(m, v)).value, v => SmartGet(m, v))
         == Ok(TransformedGroup(group, matches, v => SmartGet(m, v)).value)
  {
    var f := v => SmartGet(m, v);
    var rule := Get(group, "rule");
    var out := TransformedGroup(group, matches, f).value;
    TransformedGroupSpec(group, matches, f);
    if Truthy(rule) {
      var r1 := TransformRuleField(rule, f).value;
      assert Get(out, "rule") == r1;
      TransformRuleFieldIdempotent(rule, m);
      assert IndexOf(out, "rule").Some?;
      PutSame(out, "rule", r1);
    }
  }

  /**
   * With a settled map and well-formed hashes, `transform_group` applied to a
   * group it has already transformed leaves it as it is.
   */
  lemma TransformedGroupIdempotent(group: Fields, matches: Matcher, m: map<string, string>)
    requires Settled(m) && HashesWellFormed(group)
    requires TransformedGroup(group, matches, v => SmartGet(m, v)).Ok?
    ensures TransformedGroup(TransformedGroup(group, matches, v => SmartGet(m, v)).value, matches, v => SmartGet(m, v))
         == TransformedGroup(group, matches, v => SmartGet(m, v))
  {
    var f := v => SmartGet(m, v);
    var out := TransformedGroup(group, matches, f).value;
    TransformedGroupSpec(group, matches, f);
    RuleStepIdempotent(group, matches, m);
    var cls := TransformClasses(Get(group, "classes"), matches, f);
    assert Get(out, "classes") == cls.value;
    TransformClassesIdempotent(Get(group, "classes").fields, matches, m);
    assert IndexOf(out, "classes").Some?;
    PutSame(out, "classes", cls.value);
  }

  /** A group hash: the one object `transform_group` updates in place. */
  class Group {
    var fields: Fields

    constructor (fields: Fields)
      ensures this.fields == fields
    {
      this.fields := fields;
    }
  }

  /**
   * `transform_group(group)`: assigns `group['rule']` (when truthy) and then
   * `group['classes']`, and returns the same group object. An exception
   * while rewriting the classes leaves the rule already rewritten.
   */
  method TransformGroup(group: Group, matches: Matcher, lookup: Lookup) returns (r: Result<Group, Fault>)
    modifies group
    ensures r.Ok? <==> TransformedGroup(old(group.fields), matches, lookup).Ok?
    ensures r.Ok? ==> r.value == group && group.fields == TransformedGroup(old(group.fields), matches, lookup).value
    ensures r.Err? ==> r.error == TransformedGroup(old(group.fields), matches, lookup).error
    ensures r.Err? ==>
      group.fields == (if RuleStep(old(group.fields), lookup).Ok? then RuleStep(old(group.fields), lookup).value
                       else old(group.fields))
  {
    var rule := Get(group.fields, "rule");
    if Truthy(rule) {
      var rewritten := TransformRuleField(rule, lookup);
      if rewritten.Err? {
        return Err(rewritten.error);
      }
      group.fields := Put(group.fields, "rule", rewritten.value);
    }
    var classes := TransformClasses(Get(group.fields, "classes"), matches, lookup);
    if classes.Err? {
      return Err(classes.error);
    }
    group.fields := Put(group.fields, "classes", classes.value);
    return Ok(group);
  }
}
