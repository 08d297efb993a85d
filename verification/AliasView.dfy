/** The view of a decoded message that also answers to its .proto names (sdk/src/protobuf-json.ts). */
module AliasView {
  import opened Domain

  /** What a field can hold: no message, or messages of a type whose own plan is empty or not. */
  datatype Holds = NoMessage | Messages(aliased: bool)

  datatype Field = Field(name: string, jsonName: string, localName: string, oneof: Option<string>, collection: bool, holds: Holds)

  datatype Schema = Schema(fields: seq<Field>, oneofs: seq<string>)

  /**
   * A JavaScript value as far as the view looks at it. Instance is a message, Other any
   * other object, Group a oneof group; View and GroupView are proxies over what they wrap.
   */
  datatype Value =
    | Undefined
    | Primitive(text: string)
    | Instance(id: nat)
    | Other(id: nat)
    | Group(member: Option<string>, value: Value)
    | View(of: Value)
    | GroupView(of: Value)

  type Props = map<string, Value>

  /** Aliases point at fields by position, since two fields may look alike. */
  datatype Plan = Plan(aliases: map<string, int>, nested: map<string, Field>, groups: set<string>)

  const OBJECT_PROTOTYPE: set<string> := {
    "constructor", "__defineGetter__", "__defineSetter__", "hasOwnProperty", "__lookupGetter__", "__lookupSetter__",
    "isPrototypeOf", "propertyIsEnumerable", "toString", "valueOf", "__proto__", "toLocaleString"}

  predicate Inherited(name: string) {
    name in OBJECT_PROTOTYPE
  }

  // ----- which names resolve ---------------------------------------------------

  predicate Claims(f: Field, name: string) {
    f.name == name || f.jsonName == name
  }

  /** Names the message answers to itself. */
  function Taken(schema: Schema): set<string> {
    {"$typeName", "$unknown"} + (set i | 0 <= i < |schema.fields| :: schema.fields[i].localName) + (set o | o in schema.oneofs)
  }

  predicate Free(schema: Schema, name: string) {
    name !in Taken(schema) && !Inherited(name)
  }

  /** f is the one field of the schema that claims the name, and nothing else answers to it. */
  predicate Resolves(schema: Schema, name: string, f: int) {
    && 0 <= f < |schema.fields| && Claims(schema.fields[f], name) && Free(schema, name)
    && forall g :: 0 <= g < |schema.fields| && Claims(schema.fields[g], name) ==> g == f
  }

  /** The plan of a schema, stated outright. */
  ghost predicate IsPlan(schema: Schema, plan: Plan) {
    && (forall name :: name in plan.aliases ==> Resolves(schema, name, plan.aliases[name]))
    && (forall name, f :: Resolves(schema, name, f) ==> name in plan.aliases)
    && (forall n :: n in plan.nested ==> exists i :: LastNested(schema, |schema.fields|, n, i) && plan.nested[n] == schema.fields[i])
    && (forall n, i :: LastNested(schema, |schema.fields|, n, i) ==> n in plan.nested)
    && (forall o :: o in plan.groups <==>
          exists i :: 0 <= i < |schema.fields| && schema.fields[i].holds.Messages? && schema.fields[i].oneof == Some(o))
  }

  predicate NestedAt(f: Field, localName: string) {
    f.holds.Messages? && f.oneof.None? && f.localName == localName
  }

  /** i is the last of the first k fields that holds messages under this name outside any oneof. */
  predicate LastNested(schema: Schema, k: nat, localName: string, i: int) {
    && 0 <= i < k <= |schema.fields| && NestedAt(schema.fields[i], localName)
    && forall j :: i < j < k ==> !NestedAt(schema.fields[j], localName)
  }

  /** The fields among the first k that claim a free name, in order. */
  function Claimants(schema: Schema, k: nat, name: string): (r: seq<int>)
    requires k <= |schema.fields|
    ensures forall j :: 0 <= j < |r| ==> 0 <= r[j] < k
    ensures forall f :: f in r <==> 0 <= f < k && Free(schema, name) && Claims(schema.fields[f], name)
    ensures forall i, j :: 0 <= i < j < |r| ==> r[i] < r[j]
  {
    if k == 0 then []
    else
      var r := Claimants(schema, k - 1, name);
      if Free(schema, name) && Claims(schema.fields[k - 1], name) then r + [k - 1] else r
  }

  lemma SoleClaimant(schema: Schema, name: string)
    ensures var r := Claimants(schema, |schema.fields|, name);
      && (|r| == 1 ==> Resolves(schema, name, r[0]))
      && (forall f :: Resolves(schema, name, f) ==> r == [f])
  {
    var r := Claimants(schema, |schema.fields|, name);
    if |r| == 1 {
      forall g | 0 <= g < |schema.fields| && Claims(schema.fields[g], name) ensures g == r[0] {
        assert r[0] in r && g in r;
      }
    }
    assert |r| > 1 ==> r[0] < r[1] && r[0] in r && r[1] in r;
    forall f | Resolves(schema, name, f) ensures r == [f] {
      assert f in r;
      assert forall j :: 0 <= j < |r| ==> r[j] in r && r[j] == f;
    }
  }

  lemma PlansAreUnique(schema: Schema, p: Plan, q: Plan)
    requires IsPlan(schema, p) && IsPlan(schema, q)
    ensures p == q
  {
    SameAliases(schema, p, q);
    SameNested(schema, p, q);
    assert p.groups == q.groups;
    hide IsPlan;
  }

  lemma SameAliases(schema: Schema, p: Plan, q: Plan)
    requires IsPlan(schema, p) && IsPlan(schema, q)
    ensures p.aliases == q.aliases
  {
    forall n | n in p.aliases ensures n in q.aliases && p.aliases[n] == q.aliases[n] { assert Resolves(schema, n, p.aliases[n]); }
    forall n | n in q.aliases ensures n in p.aliases { assert Resolves(schema, n, q.aliases[n]); }
  }

  lemma SameNested(schema: Schema, p: Plan, q: Plan)
    requires IsPlan(schema, p) && IsPlan(schema, q)
    ensures p.nested == q.nested
  {
    hide Resolves, NestedAt;
    forall n | n in p.nested ensures n in q.nested && p.nested[n] == q.nested[n] {
      var i :| LastNested(schema, |schema.fields|, n, i) && p.nested[n] == schema.fields[i];
      var j :| LastNested(schema, |schema.fields|, n, j) && q.nested[n] == schema.fields[j];
      LastIsOne(schema, n, i, j);
    }
    forall n | n in q.nested ensures n in p.nested {
      var i :| LastNested(schema, |schema.fields|, n, i) && q.nested[n] == schema.fields[i];
    }
  }

  lemma LastIsOne(schema: Schema, n: string, i: int, j: int)
    requires LastNested(schema, |schema.fields|, n, i) && LastNested(schema, |schema.fields|, n, j)
    ensures i == j
  {
  }

  /** The WeakMap of plans, one per schema. */
  class Plans {
    var cache: map<Schema, Plan>

    ghost predicate Valid() reads this {
      forall s :: s in cache ==> IsPlan(s, cache[s])
    }

    constructor ()
      ensures Valid()
    {
      cache := map[];
    }

    method AliasPlan(schema: Schema) returns (plan: Plan)
      requires Valid()
      modifies this
      ensures Valid() && IsPlan(schema, plan) && cache == old(cache)[schema := plan]
    {
      if schema in cache {
        plan := cache[schema];
        assert cache == cache[schema := plan];
        return;
      }
      var aliases := BuildAliases(schema);
      var nested, groups := BuildNested(schema);
      plan := Plan(aliases, nested, groups);
      cache := cache[schema := plan];
    }
  }

  method BuildTaken(schema: Schema) returns (taken: set<string>)
    ensures taken == Taken(schema)
  {
    taken := {"$typeName", "$unknown"};
    for i := 0 to |schema.fields|
      invariant taken == {"$typeName", "$unknown"} + set j | 0 <= j < i :: schema.fields[j].localName
    {
      taken := taken + {schema.fields[i].localName};
    }
    ghost var names := taken;
    for i := 0 to |schema.oneofs|
      invariant taken == names + set o | o in schema.oneofs[..i]
    {
      assert schema.oneofs[..i + 1] == schema.oneofs[..i] + [schema.oneofs[i]];
      taken := taken + {schema.oneofs[i]};
    }
    assert schema.oneofs[..|schema.oneofs|] == schema.oneofs;
  }

  function ClaimsOf(claims: map<string, seq<int>>, name: string): seq<int> {
    if name in claims then claims[name] else []
  }

  method BuildAliases(schema: Schema) returns (aliases: map<string, int>)
    ensures forall name :: name in aliases ==> Resolves(schema, name, aliases[name])
    ensures forall name, f :: Resolves(schema, name, f) ==> name in aliases
  {
    var claims := BuildClaims(schema);
    aliases := map[];
    var todo := claims.Keys;
    while todo != {}
      invariant todo <= claims.Keys
      invariant forall n :: n in aliases <==> n in claims && n !in todo && |claims[n]| == 1
      invariant forall n :: n in aliases ==> aliases[n] == claims[n][0]
      decreases |todo|
    {
      var n :| n in todo;
      if |claims[n]| == 1 {
        aliases := aliases[n := claims[n][0]];
      }
      todo := todo - {n};
    }
    hide Resolves, Claimants;
    forall n | n in aliases ensures Resolves(schema, n, aliases[n]) {
      SoleClaimant(schema, n);
      assert ClaimsOf(claims, n) == claims[n];
    }
    forall n, f | Resolves(schema, n, f) ensures n in aliases {
      SoleClaimant(schema, n);
      assert ClaimsOf(claims, n) == [f];
    }
  }

  method BuildClaims(schema: Schema) returns (claims: map<string, seq<int>>)
    ensures forall n :: ClaimsOf(claims, n) == Claimants(schema, |schema.fields|, n)
  {
    hide Claimants, AddClaim, ClaimsOf, Taken, Inherited;
    var taken := BuildTaken(schema);
    claims := map[];
    NothingClaimed(schema);
    for i := 0 to |schema.fields|
      invariant forall n :: ClaimsOf(claims, n) == Claimants(schema, i, n)
    {
      var f := schema.fields[i];
      ghost var was := claims;
      if f.name !in taken && !Inherited(f.name) {
        claims := AddClaim(claims, f.name, i);
      }
      if f.jsonName != f.name && f.jsonName !in taken && !Inherited(f.jsonName) {
        claims := AddClaim(claims, f.jsonName, i);
      }
      assert claims == ClaimedBy(was, schema, i);
      forall n ensures ClaimsOf(claims, n) == Claimants(schema, i + 1, n) {
        hide ClaimedBy;
        ClaimedByGrows(was, schema, i, n);
      }
    }
  }

  lemma NothingClaimed(schema: Schema)
    ensures forall n :: ClaimsOf(map[], n) == Claimants(schema, 0, n)
  {
  }

  function ClaimedBy(claims: map<string, seq<int>>, schema: Schema, i: nat): map<string, seq<int>>
    requires i < |schema.fields|
  {
    var f := schema.fields[i];
    var first := if Free(schema, f.name) then AddClaim(claims, f.name, i) else claims;
    if f.jsonName != f.name && Free(schema, f.jsonName) then AddClaim(first, f.jsonName, i) else first
  }

  lemma ClaimedByGrows(claims: map<string, seq<int>>, schema: Schema, i: nat, n: string)
    requires i < |schema.fields| && ClaimsOf(claims, n) == Claimants(schema, i, n)
    ensures ClaimsOf(ClaimedBy(claims, schema, i), n) == Claimants(schema, i + 1, n)
  {
    hide Claimants, Free, AddClaim, ClaimsOf;
    var f := schema.fields[i];
    ClaimantsGrow(schema, i, n);
    ClaimAdded(claims, f.name, i, n);
    ClaimAdded(claims, f.jsonName, i, n);
    ClaimAdded(AddClaim(claims, f.name, i), f.jsonName, i, n);
    assert Claimants(schema, i, n) + [] == Claimants(schema, i, n);
  }

  function AddClaim(claims: map<string, seq<int>>, name: string, i: int): map<string, seq<int>> {
    claims[name := ClaimsOf(claims, name) + [i]]
  }

  lemma ClaimAdded(claims: map<string, seq<int>>, name: string, i: int, n: string)
    ensures ClaimsOf(AddClaim(claims, name, i), n) == ClaimsOf(claims, n) + if n == name then [i] else []
  {
    assert ClaimsOf(claims, n) + [] == ClaimsOf(claims, n);
  }

  lemma ClaimantsGrow(schema: Schema, k: nat, name: string)
    requires k < |schema.fields|
    ensures Claimants(schema, k + 1, name) ==
            if Free(schema, name) && Claims(schema.fields[k], name) then Claimants(schema, k, name) + [k] else Claimants(schema, k, name)
  {
  }

  method BuildNested(schema: Schema) returns (nested: map<string, Field>, groups: set<string>)
    ensures forall n :: n in nested ==> exists i :: LastNested(schema, |schema.fields|, n, i) && nested[n] == schema.fields[i]
    ensures forall n, i :: LastNested(schema, |schema.fields|, n, i) ==> n in nested
    ensures forall o :: o in groups <==>
              exists i :: 0 <= i < |schema.fields| && schema.fields[i].holds.Messages? && schema.fields[i].oneof == Some(o)
  {
    nested, groups := map[], {};
    for k := 0 to |schema.fields|
      invariant forall n :: n in nested ==> exists i :: LastNested(schema, k, n, i) && nested[n] == schema.fields[i]
      invariant forall n, i :: LastNested(schema, k, n, i) ==> n in nested
      invariant forall o :: o in groups <==>
                  exists i :: 0 <= i < k && schema.fields[i].holds.Messages? && schema.fields[i].oneof == Some(o)
    {
      var f := schema.fields[k];
      ghost var was := nested;
      if f.holds.Messages? {
        if f.oneof.None? {
          nested := nested[f.localName := f];
        } else {
          groups := groups + {f.oneof.value};
        }
      }
      forall n | n in nested ensures exists i :: LastNested(schema, k + 1, n, i) && nested[n] == schema.fields[i] {
        if NestedAt(f, n) {
          assert LastNested(schema, k + 1, n, k);
        } else {
          var i :| LastNested(schema, k, n, i) && was[n] == schema.fields[i];
          assert LastNested(schema, k + 1, n, i);
        }
      }
      var next := k + 1;
      forall n, i | LastNested(schema, next, n, i) ensures n in nested {
        assert i < k ==> LastNested(schema, k, n, i);
      }
    }
  }

  // ----- reading and writing ---------------------------------------------------

  function Prop(props: Props, name: string): Value {
    if name in props then props[name] else Undefined
  }

  /** Reflect.has: own or inherited. */
  predicate Has(props: Props, name: string) {
    name in props || Inherited(name)
  }

  function Case(group: Value): Option<string> {
    match group
    case Group(member, _) => member
    case GroupView(of) => Case(of)
    case _ => None
  }

  function GroupValue(group: Value): Value {
    match group
    case Group(_, value) => value
    case GroupView(of) => GroupValue(of)
    case _ => Undefined
  }

  function ReadField(props: Props, f: Field): Value {
    match f.oneof
    case None => Prop(props, f.localName)
    case Some(o) =>
      if Case(Prop(props, o)) == Some(f.localName) then GroupValue(Prop(props, o)) else Undefined
  }

  function WriteField(props: Props, f: Field, next: Value): Props {
    match f.oneof
    case None => props[f.localName := next]
    case Some(o) =>
      if next != Undefined then props[o := Group(Some(f.localName), next)]
      else if Case(Prop(props, o)) == Some(f.localName) then props[o := Group(None, Undefined)]
      else props
  }

  /** The property a field lives in. */
  function Storage(f: Field): string {
    match f.oneof
    case None => f.localName
    case Some(o) => o
  }

  /** viewOfField and withProtoNameAliases. */
  function ViewOfField(v: Value, f: Field): Value {
    if f.holds.NoMessage? || v.Undefined? || v.Primitive? then v
    else if f.collection then View(v)
    else if v.Instance? && f.holds.aliased then View(v)
    else v
  }

  /** A value without the proxies around it. */
  function Strip(v: Value): Value {
    match v
    case View(of) => Strip(of)
    case GroupView(of) => Strip(of)
    case _ => v
  }

  predicate AliasOf(schema: Schema, plan: Plan, props: Props, name: string) {
    !Has(props, name) && name in plan.aliases && 0 <= plan.aliases[name] < |schema.fields|
  }

  function Get(schema: Schema, plan: Plan, props: Props, name: string): Value {
    if AliasOf(schema, plan, props, name) then
      var f := schema.fields[plan.aliases[name]];
      ViewOfField(ReadField(props, f), f)
    else if name in plan.nested then ViewOfField(Prop(props, name), plan.nested[name])
    else if name in plan.groups && !Prop(props, name).Undefined? && !Prop(props, name).Primitive? then GroupView(Prop(props, name))
    else Prop(props, name)
  }

  function Set(schema: Schema, plan: Plan, props: Props, name: string, next: Value): Props {
    if AliasOf(schema, plan, props, name) then WriteField(props, schema.fields[plan.aliases[name]], next)
    else props[name := next]
  }

  class MessageView {
    const schema: Schema
    const plan: Plan
    var props: Props

    constructor (schema: Schema, plan: Plan, props: Props)
      requires IsPlan(schema, plan)
      ensures this.schema == schema && this.plan == plan && this.props == props
    {
      this.schema, this.plan, this.props := schema, plan, props;
    }

    method SetField(f: Field, next: Value)
      modifies this
      ensures props == WriteField(old(props), f, next)
    {
      if f.oneof.None? {
        props := props[f.localName := next];
        return;
      }
      var group := Prop(props, f.oneof.value);
      if next != Undefined {
        props := props[f.oneof.value := Group(Some(f.localName), next)];
      } else if Case(group) == Some(f.localName) {
        props := props[f.oneof.value := Group(None, Undefined)];
      }
    }

    method SetProperty(name: string, next: Value)
      requires IsPlan(schema, plan)
      modifies this
      ensures props == Set(schema, plan, old(props), name, next)
    {
      if !Has(props, name) && name in plan.aliases {
        assert Resolves(schema, name, plan.aliases[name]);
        SetField(schema.fields[plan.aliases[name]], next);
      } else {
        props := props[name := next];
      }
    }
  }

  // ----- the laws --------------------------------------------------------------

  /** A name is an alias of a field exactly when the field alone claims it and nothing else
      answers to it. */
  lemma ResolvesExactly(schema: Schema, plan: Plan, props: Props, name: string, f: int)
    requires IsPlan(schema, plan)
    ensures AliasOf(schema, plan, props, name) && plan.aliases[name] == f <==> Resolves(schema, name, f) && !Has(props, name)
  {
  }

  /** An alias is never the property its own or any other field lives in. */
  lemma AliasIsNoStorage(schema: Schema, name: string, f: int, g: nat)
    requires Resolves(schema, name, f) && g < |schema.fields|
    requires forall i :: 0 <= i < |schema.fields| && schema.fields[i].oneof.Some? ==> schema.fields[i].oneof.value in schema.oneofs
    ensures name != Storage(schema.fields[g])
  {
  }

  /** Put then get. */
  lemma WriteThenRead(schema: Schema, plan: Plan, props: Props, name: string, next: Value)
    requires IsPlan(schema, plan) && Grouped(schema) && AliasOf(schema, plan, props, name)
    ensures var t := Set(schema, plan, props, name, next);
      AliasOf(schema, plan, t, name) && Strip(Get(schema, plan, t, name)) == Strip(next)
  {
    var f := plan.aliases[name];
    assert Resolves(schema, name, f);
    AliasIsNoStorage(schema, name, f, f);
    FieldWriteThenRead(props, schema.fields[f], next);
    FieldWriteReaches(props, schema.fields[f], next);
    hide IsPlan, Resolves, WriteField, ReadField, Grouped;
  }

  lemma FieldWriteThenRead(props: Props, f: Field, next: Value)
    ensures ReadField(WriteField(props, f, next), f) == next
  {
  }

  lemma FieldWriteReaches(props: Props, f: Field, next: Value)
    ensures forall p :: p != Storage(f) ==> Prop(WriteField(props, f, next), p) == Prop(props, p)
                                            && (p in WriteField(props, f, next) <==> p in props)
  {
  }

  /** Put what is there and nothing moves; put twice and the last one stays. */
  lemma WriteBackAndTwice(props: Props, f: Field, first: Value, next: Value)
    requires f.oneof.Some? || f.localName in props
    requires f.oneof.Some? && Case(Prop(props, f.oneof.value)) == Some(f.localName) ==>
               Prop(props, f.oneof.value) == Group(Some(f.localName), ReadField(props, f)) && ReadField(props, f) != Undefined
    ensures WriteField(props, f, ReadField(props, f)) == props
    ensures next != Undefined || f.oneof.None? ==> WriteField(WriteField(props, f, first), f, next) == WriteField(props, f, next)
  {
  }

  ghost predicate Grouped(schema: Schema) {
    forall i :: 0 <= i < |schema.fields| && schema.fields[i].oneof.Some? ==> schema.fields[i].oneof.value in schema.oneofs
  }

  /**
   * A write through an alias reaches one property. Every field kept elsewhere reads as
   * before, by its own name or any alias; another member of the same oneof is displaced
   * by a value and untouched by the clearing of a member that is not the current one.
   */
  lemma WriteIsLocal(schema: Schema, plan: Plan, props: Props, name: string, next: Value, g: int)
    requires IsPlan(schema, plan) && Grouped(schema) && AliasOf(schema, plan, props, name) && 0 <= g < |schema.fields|
    ensures var f, other, t := schema.fields[plan.aliases[name]], schema.fields[g], Set(schema, plan, props, name, next);
      && (forall p :: p != Storage(f) ==> Prop(t, p) == Prop(props, p) && (p in t <==> p in props))
      && (Storage(other) != Storage(f) ==> ReadField(t, other) == ReadField(props, other))
      && (f.oneof.Some? && other.oneof == f.oneof && other.localName != f.localName ==>
            ReadField(t, other) == if next != Undefined || ReadsAs(props, f) then Undefined else ReadField(props, other))
      && (f.oneof.Some? && next == Undefined && !ReadsAs(props, f) ==> t == props)
  {
    FieldWriteReaches(props, schema.fields[plan.aliases[name]], next);
    FieldWriteIsLocal(props, schema.fields[plan.aliases[name]], next, schema.fields[g]);
    hide IsPlan, Grouped, WriteField, ReadField;
  }

  lemma FieldWriteIsLocal(props: Props, f: Field, next: Value, other: Field)
    ensures var t := WriteField(props, f, next);
      && (Storage(other) != Storage(f) ==> ReadField(t, other) == ReadField(props, other))
      && (f.oneof.Some? && other.oneof == f.oneof && other.localName != f.localName ==>
            ReadField(t, other) == if next != Undefined || ReadsAs(props, f) then Undefined else ReadField(props, other))
      && (f.oneof.Some? && next == Undefined && !ReadsAs(props, f) ==> t == props)
  {
  }

  /** f is the current case of its group. */
  predicate ReadsAs(props: Props, f: Field) {
    f.oneof.Some? && Case(Prop(props, f.oneof.value)) == Some(f.localName)
  }

  /** Reading through other aliases and own names is as local as reading fields. */
  lemma OtherNamesUnmoved(schema: Schema, plan: Plan, props: Props, name: string, next: Value, other: string)
    requires IsPlan(schema, plan) && Grouped(schema) && AliasOf(schema, plan, props, name)
    requires other != Storage(schema.fields[plan.aliases[name]])
    requires AliasOf(schema, plan, props, other) ==>
               Storage(schema.fields[plan.aliases[other]]) != Storage(schema.fields[plan.aliases[name]])
    ensures Get(schema, plan, Set(schema, plan, props, name, next), other) == Get(schema, plan, props, other)
  {
    WriteIsLocal(schema, plan, props, name, next, plan.aliases[name]);
    if AliasOf(schema, plan, props, other) {
      WriteIsLocal(schema, plan, props, name, next, plan.aliases[other]);
    }
  }

  /** An alias reads what the field's own name reads, outside any oneof. */
  lemma AliasAgrees(schema: Schema, plan: Plan, props: Props, name: string)
    requires IsPlan(schema, plan) && Grouped(schema) && AliasOf(schema, plan, props, name)
    requires forall i, j :: 0 <= i < j < |schema.fields| ==> schema.fields[i].localName != schema.fields[j].localName
    requires forall i :: 0 <= i < |schema.fields| ==> schema.fields[i].localName !in schema.oneofs
    ensures var f := schema.fields[plan.aliases[name]];
      f.oneof.None? ==> Get(schema, plan, props, name) == Get(schema, plan, props, f.localName)
  {
    var i := plan.aliases[name];
    var f := schema.fields[i];
    assert Resolves(schema, name, i);
    if f.oneof.None? {
      LocalNameIsNoAlias(schema, plan, props, i);
      if f.holds.Messages? {
        assert LastNested(schema, |schema.fields|, f.localName, i);
        var j :| LastNested(schema, |schema.fields|, f.localName, j) && plan.nested[f.localName] == schema.fields[j];
        assert j == i;
      } else {
        assert forall j :: LastNested(schema, |schema.fields|, f.localName, j) ==> j == i;
      }
    }
  }

  lemma LocalNameIsNoAlias(schema: Schema, plan: Plan, props: Props, i: nat)
    requires IsPlan(schema, plan) && i < |schema.fields|
    ensures !AliasOf(schema, plan, props, schema.fields[i].localName)
  {
    assert schema.fields[i].localName in Taken(schema);
  }

  // ----- nested messages -------------------------------------------------------

  /** The `value` of a oneof group read through its view: the current member's, viewed. */
  function GroupGet(schema: Schema, o: string, group: Value): Value {
    match Member(schema, o, |schema.fields|, Case(group))
    case None => GroupValue(group)
    case Some(f) => ViewOfField(GroupValue(group), f)
  }

  /** The first of the first k fields of the oneof with this local name. */
  function Member(schema: Schema, o: string, k: nat, localName: Option<string>): Option<Field>
    requires k <= |schema.fields|
  {
    if k == 0 then None
    else
      match Member(schema, o, k - 1, localName)
      case Some(f) => Some(f)
      case None =>
        var f := schema.fields[k - 1];
        if f.oneof == Some(o) && localName == Some(f.localName) then Some(f) else None
  }

  lemma {:induction false} MemberFinds(schema: Schema, i: nat, k: nat)
    requires i < k <= |schema.fields| && schema.fields[i].oneof.Some?
    requires forall a, b :: 0 <= a < b < |schema.fields| ==> schema.fields[a].localName != schema.fields[b].localName
    ensures Member(schema, schema.fields[i].oneof.value, k, Some(schema.fields[i].localName)) == Some(schema.fields[i])
  {
    if k - 1 > i {
      MemberFinds(schema, i, k - 1);
    } else {
      MemberNotBefore(schema, i, i);
    }
  }

  lemma {:induction false} MemberNotBefore(schema: Schema, i: nat, k: nat)
    requires k <= i < |schema.fields| && schema.fields[i].oneof.Some?
    requires forall a, b :: 0 <= a < b < |schema.fields| ==> schema.fields[a].localName != schema.fields[b].localName
    ensures Member(schema, schema.fields[i].oneof.value, k, Some(schema.fields[i].localName)) == None
  {
    if k > 0 {
      MemberNotBefore(schema, i, k - 1);
    }
  }

  /**
   * A message that answers to aliases is viewed wherever it is read: under its field's own
   * name, under an alias, and - of a oneof - through the group. So is a list or map of messages.
   */
  lemma NestedAreViewed(schema: Schema, plan: Plan, props: Props, i: nat)
    requires IsPlan(schema, plan) && Grouped(schema) && i < |schema.fields| && schema.fields[i].holds.Messages?
    requires forall a, b :: 0 <= a < b < |schema.fields| ==> schema.fields[a].localName != schema.fields[b].localName
    requires forall a :: 0 <= a < |schema.fields| ==> schema.fields[a].localName !in schema.oneofs
    requires var v := ReadField(props, schema.fields[i]);
      if schema.fields[i].collection then v.Other? else v.Instance? && schema.fields[i].holds.aliased
    ensures var f := schema.fields[i];
      && (f.oneof.None? ==> Get(schema, plan, props, f.localName) == View(ReadField(props, f)))
      && (f.oneof.Some? ==>
            GroupGet(schema, f.oneof.value, Prop(props, f.oneof.value)) == View(ReadField(props, f)))
      && (forall name :: AliasOf(schema, plan, props, name) && plan.aliases[name] == i ==>
            Get(schema, plan, props, name) == View(ReadField(props, f)))
  {
    var f := schema.fields[i];
    LocalNameIsNoAlias(schema, plan, props, i);
    if f.oneof.None? {
      assert LastNested(schema, |schema.fields|, f.localName, i);
      var j :| LastNested(schema, |schema.fields|, f.localName, j) && plan.nested[f.localName] == schema.fields[j];
      assert j == i;
    } else {
      MemberFinds(schema, i, |schema.fields|);
    }
  }

  /** A oneof with a member that holds messages is handed over as a view of the group, through
      which such a member is viewed as above. */
  lemma GroupsAreViewed(schema: Schema, plan: Plan, props: Props, i: nat)
    requires IsPlan(schema, plan) && Grouped(schema) && i < |schema.fields|
    requires schema.fields[i].holds.Messages? && schema.fields[i].oneof.Some?
    requires forall a :: 0 <= a < |schema.fields| ==> schema.fields[a].localName !in schema.oneofs
    ensures var o := schema.fields[i].oneof.value;
      !Prop(props, o).Undefined? && !Prop(props, o).Primitive? ==> Get(schema, plan, props, o) == GroupView(Prop(props, o))
  {
    var o := schema.fields[i].oneof.value;
    assert o in plan.groups;
    forall name, f | Resolves(schema, name, f) ensures name != o {
      AliasIsNoStorage(schema, name, f, i);
    }
  }

  /** And what holds no message is handed over as it is. */
  lemma PlainAreNot(v: Value, f: Field)
    ensures f.holds.NoMessage? || v.Undefined? || v.Primitive? ==> ViewOfField(v, f) == v
  {
  }

  /** A write under a name of the message's own is a plain write. */
  lemma OwnNameWrites(schema: Schema, plan: Plan, props: Props, name: string, next: Value)
    requires !AliasOf(schema, plan, props, name)
    ensures var t := Set(schema, plan, props, name, next);
      Prop(t, name) == next && forall p :: p != name ==> Prop(t, p) == Prop(props, p)
  {
  }
}
