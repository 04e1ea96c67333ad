/**
 * The active-record classes produced by `modelize(namespace, fields)`.
 *
 * An instance wraps one record of a remote collection named `namespace`. It
 * keeps two pieces of state of its own, the `created` flag (the record is known
 * to exist remotely) and the `uuid` identifier, and it sends exactly the
 * declared `fields` to the remote client when it is saved.
 *
 * The state of an instance is summarised by a `Snapshot` value; the functions
 * `Hydrate`, `Project`, `Next` and `Issued` say what the constructor, the
 * `$values` getter and the `save`/`remove` methods do to it, and the methods of
 * class `Model` are proved to follow them. The remote client is an object that
 * logs the calls it receives; what the remote service answers is an input.
 */
module ModelFactory {
  import opened Optional
  import Uuid

  /** The JavaScript values a property can hold, as far as this code looks at them. */
  datatype JsValue =
    | Undefined
    | Null
    | Bool(b: bool)
    | Num(n: int)
    | Str(s: string)
    | Ref(address: nat)  // an object or a function

  /** A plain record: the properties object passed to the constructor, or one record of the remote service. */
  type Props = map<string, JsValue>

  /** `Boolean(v)`. */
  predicate Truthy(v: JsValue) {
    match v
    case Undefined => false
    case Null => false
    case Bool(b) => b
    case Num(n) => n != 0
    case Str(s) => s != ""
    case Ref(_) => true
  }

  /** The left operand of `??` is replaced exactly when it is null or undefined. */
  predicate Nullish(v: JsValue) {
    v.Undefined? || v.Null?
  }

  /** `props[key]`: an absent key reads as undefined. */
  function Prop(props: Props, key: string): JsValue {
    if key in props then props[key] else Undefined
  }

  /** The two arguments of `modelize`. */
  datatype Config = Config(namespace: string, fields: seq<string>)

  /**
   * The state of one instance: its own `created` and `uuid` fields and the
   * other properties assigned on it (by the concrete model class or by the
   * application; the base constructor assigns none).
   */
  datatype Snapshot = Snapshot(created: bool, uuid: JsValue, attrs: Props)

  /**
   * The state the constructor gives an instance built from `props`, when the
   * identifier supplier has handed out `drawn` identifiers so far.
   */
  function Hydrate(props: Props, drawn: nat): (s: Snapshot)
    ensures s.attrs == map[]
    ensures Nullish(Prop(props, "uuid")) ==> !s.created && s.uuid == Str(Uuid.Draw(drawn))
    ensures !Nullish(Prop(props, "uuid")) ==> s.uuid == Prop(props, "uuid")
    ensures s.created == Truthy(Prop(props, "uuid"))
    ensures Prop(props, "uuid").Str? ==> (s.created <==> Prop(props, "uuid").s != "")
    ensures Prop(props, "uuid") == Str("") ==> !s.created && s.uuid == Str("")
    ensures !Nullish(s.uuid)
  {
    var u := Prop(props, "uuid");
    Snapshot(Truthy(u), if Nullish(u) then Str(Uuid.Draw(drawn)) else u, map[])
  }

  /** `this[key]` on an instance in state `s`. */
  function Get(s: Snapshot, key: string): JsValue {
    if key == "uuid" then s.uuid
    else if key == "created" then Bool(s.created)
    else Prop(s.attrs, key)
  }

  /** `fields.map(key => [key, this[key]])`: one entry per declared field, in declared order. */
  function Entries(fields: seq<string>, s: Snapshot): (e: seq<(string, JsValue)>)
    ensures |e| == |fields|
    ensures forall i :: 0 <= i < |e| ==> e[i] == (fields[i], Get(s, fields[i]))
  {
    if fields == [] then [] else [(fields[0], Get(s, fields[0]))] + Entries(fields[1..], s)
  }

  /** `Object.fromEntries`: a later entry for the same key overwrites an earlier one. */
  function FromEntries(e: seq<(string, JsValue)>): map<string, JsValue> {
    if e == [] then map[] else map[e[0].0 := e[0].1] + FromEntries(e[1..])
  }

  /** The `$values` getter of an instance in state `s`. */
  function Project(fields: seq<string>, s: Snapshot): map<string, JsValue> {
    FromEntries(Entries(fields, s))
  }

  /** `$values` has exactly the declared fields as keys, each holding the instance's value for it. */
  lemma {:induction false} ProjectExactlyFields(fields: seq<string>, s: Snapshot)
    ensures Project(fields, s).Keys == set f | f in fields
    ensures forall k :: k in Project(fields, s) ==> Project(fields, s)[k] == Get(s, k)
  {
    if fields != [] {
      ProjectExactlyFields(fields[1..], s);
      assert Entries(fields, s)[1..] == Entries(fields[1..], s);
      assert (set f | f in fields) == {fields[0]} + (set f | f in fields[1..]);
    }
  }

  /** The answer of the remote service to one call: a value, or the reason the promise was rejected. */
  datatype Reply<+T> = Ok(value: T) | Err(reason: JsValue)

  /** A call received by the remote client. */
  datatype Call =
    | RetrieveCall(namespace: string, id: string)
    | ListCall(namespace: string)
    | CreateCall(namespace: string, values: map<string, JsValue>)
    | UpdateCall(namespace: string, uuid: JsValue, values: map<string, JsValue>)
    | RemoveCall(namespace: string, uuid: JsValue)

  /** An instance method call together with the remote service's answer to it. */
  datatype Op = Save(answer: Reply<JsValue>) | Remove(answer: Reply<JsValue>)

  /** The one call the remote client receives when `op` runs on an instance in state `s`. */
  function Issued(config: Config, s: Snapshot, op: Op): Call {
    match op
    case Save(_) =>
      if s.created then UpdateCall(config.namespace, s.uuid, Project(config.fields, s))
      else CreateCall(config.namespace, Project(config.fields, s))
    case Remove(_) => RemoveCall(config.namespace, s.uuid)
  }

  /** The state after `op`: only a successful answer changes `created`. */
  function Next(s: Snapshot, op: Op): Snapshot {
    match op
    case Save(answer) => if answer.Ok? then s.(created := true) else s
    case Remove(answer) => if answer.Ok? then s.(created := false) else s
  }

  /** The state after running `ops` in order. */
  function Run(s: Snapshot, ops: seq<Op>): Snapshot {
    if ops == [] then s else Next(Run(s, ops[..|ops| - 1]), ops[|ops| - 1])
  }

  /** The calls the remote client receives while `ops` run, in order. */
  function Trace(config: Config, s: Snapshot, ops: seq<Op>): seq<Call> {
    if ops == [] then []
    else Trace(config, s, ops[..|ops| - 1]) + [Issued(config, Run(s, ops[..|ops| - 1]), ops[|ops| - 1])]
  }

  /** The last call in `ops` whose answer was a success, if any. */
  function LastSuccess(ops: seq<Op>): Option<Op> {
    if ops == [] then None
    else if ops[|ops| - 1].answer.Ok? then Some(ops[|ops| - 1])
    else LastSuccess(ops[..|ops| - 1])
  }

  /** Neither `save` nor `remove` touches the identifier or the other properties. */
  lemma {:induction false} RunKeepsIdentity(s: Snapshot, ops: seq<Op>)
    ensures Run(s, ops).uuid == s.uuid
    ensures Run(s, ops).attrs == s.attrs
  {
    if ops != [] {
      RunKeepsIdentity(s, ops[..|ops| - 1]);
    }
  }

  /**
   * `created` is decided by the last call that succeeded: true after a save,
   * false after a remove; failed calls leave it as it was.
   */
  lemma {:induction false} CreatedFollowsLastSuccess(s: Snapshot, ops: seq<Op>)
    ensures LastSuccess(ops).None? ==> Run(s, ops).created == s.created
    ensures LastSuccess(ops).Some? ==> Run(s, ops).created == LastSuccess(ops).value.Save?
  {
    if ops != [] {
      CreatedFollowsLastSuccess(s, ops[..|ops| - 1]);
    }
  }

  /** Every call issues exactly one remote call. */
  lemma {:induction false} OneCallPerOp(config: Config, s: Snapshot, ops: seq<Op>)
    ensures |Trace(config, s, ops)| == |ops|
    ensures forall i {:trigger Trace(config, s, ops)[i]} :: 0 <= i < |ops| ==>
              Trace(config, s, ops)[i] == Issued(config, Run(s, ops[..i]), ops[i])
  {
    if ops != [] {
      var init := ops[..|ops| - 1];
      OneCallPerOp(config, s, init);
      forall i | 0 <= i < |init|
        ensures Trace(config, s, ops)[i] == Issued(config, Run(s, ops[..i]), ops[i])
      {
        assert ops[..i] == init[..i];
        assert Trace(config, s, ops)[i] == Trace(config, s, init)[i];
      }
    }
  }

  /** A save that succeeded makes the next save an update of the same identifier, not a second create. */
  lemma SaveAfterSuccessfulSaveUpdates(config: Config, s: Snapshot, v: JsValue, answer: Reply<JsValue>)
    ensures Issued(config, Next(s, Save(Ok(v))), Save(answer)) == UpdateCall(config.namespace, s.uuid, Project(config.fields, s.(created := true)))
  {
  }

  /** A save whose create call was rejected leaves the instance uncreated, so saving again retries the create. */
  lemma FailedCreateIsRetried(config: Config, s: Snapshot, e: JsValue, answer: Reply<JsValue>)
    requires !s.created
    ensures !Next(s, Save(Err(e))).created
    ensures Issued(config, Next(s, Save(Err(e))), Save(answer)).CreateCall?
  {
  }

  /** The number of records in `records` that carry no identifier, so that the constructor draws one. */
  function MissingIds(records: seq<Props>): nat {
    if records == [] then 0
    else MissingIds(records[..|records| - 1]) + (if Nullish(Prop(records[|records| - 1], "uuid")) then 1 else 0)
  }

  /** The states of the instances built from `records` one after another, starting with `drawn` identifiers handed out. */
  function HydrateAll(records: seq<Props>, drawn: nat): (states: seq<Snapshot>)
    ensures |states| == |records|
  {
    if records == [] then []
    else
      var init := records[..|records| - 1];
      HydrateAll(init, drawn) + [Hydrate(records[|records| - 1], drawn + MissingIds(init))]
  }

  /**
   * One instance per record, in the order of the records; each is built as the
   * constructor builds it, and only the records without an identifier draw one.
   */
  lemma {:induction false} HydrateAllPointwise(records: seq<Props>, drawn: nat)
    ensures forall i {:trigger HydrateAll(records, drawn)[i]} :: 0 <= i < |records| ==>
              HydrateAll(records, drawn)[i] == Hydrate(records[i], drawn + MissingIds(records[..i]))
  {
    if records != [] {
      var init := records[..|records| - 1];
      HydrateAllPointwise(init, drawn);
      forall i | 0 <= i < |init|
        ensures init[..i] == records[..i]
      {
      }
    }
  }

  /**
   * An instance built from a listed record is created exactly when the
   * record's identifier is truthy: for a string, when it is non-empty; never
   * when it is missing, in which case a fresh identifier replaces it.
   */
  lemma ListedCreatedIffIdentified(records: seq<Props>, drawn: nat, i: nat)
    requires i < |records|
    ensures HydrateAll(records, drawn)[i].created == Truthy(Prop(records[i], "uuid"))
    ensures Prop(records[i], "uuid").Str? ==>
              (HydrateAll(records, drawn)[i].created <==> Prop(records[i], "uuid").s != "")
    ensures Nullish(Prop(records[i], "uuid")) ==>
              !HydrateAll(records, drawn)[i].created &&
              HydrateAll(records, drawn)[i].uuid == Str(Uuid.Draw(drawn + MissingIds(records[..i])))
  {
    HydrateAllPointwise(records, drawn);
  }

  /** The shared remote client. Only the calls it receives are kept; their answers come from outside. */
  class Client {
    ghost var log: seq<Call>

    constructor ()
      ensures log == []
    {
      log := [];
    }

    /** Send `call` to the remote service, which answers `answer`. */
    method Send<T>(call: Call, answer: Reply<T>) returns (r: Reply<T>)
      modifies this
      ensures log == old(log) + [call]
      ensures r == answer
    {
      log := log + [call];
      r := answer;
    }
  }

  /** One instance of a class returned by `modelize(config.namespace, config.fields)`. */
  class Model {
    const config: Config
    var created: bool
    var uuid: JsValue
    var attrs: Props

    /** The instance's state as a value. */
    function State(): Snapshot
      reads this
    {
      Snapshot(created, uuid, attrs)
    }

    /** The `$values` getter. */
    function Values(): (v: map<string, JsValue>)
      reads this
      ensures v.Keys == set f | f in config.fields
      ensures forall k :: k in v ==> v[k] == Get(State(), k)
    {
      ProjectExactlyFields(config.fields, State());
      Project(config.fields, State())
    }

    /** `new Model(props)`; `ids` stands for `v4()`, called only when `props.uuid` is null or undefined. */
    constructor (config: Config, props: Props, ids: Uuid.Supplier)
      modifies ids
      ensures this.config == config
      ensures State() == Hydrate(props, old(ids.drawn))
      ensures ids.drawn == old(ids.drawn) + (if Nullish(Prop(props, "uuid")) then 1 else 0)
    {
      var u := Prop(props, "uuid");
      var id := u;
      if Nullish(u) {
        var drawn := ids.V4();
        id := Str(drawn);
      }
      this.config := config;
      created := Truthy(u);
      uuid := id;
      attrs := map[];
    }

    /** The concrete model or the application assigns the property `key`. */
    method Assign(key: string, value: JsValue)
      requires key != "uuid" && key != "created"
      modifies this`attrs
      ensures attrs == old(attrs)[key := value]
      ensures Get(State(), key) == value
    {
      attrs := attrs[key := value];
    }

    /** `save()`: update when created, otherwise create and mark created once the create succeeded. */
    method Save(client: Client, answer: Reply<JsValue>) returns (r: Reply<JsValue>)
      modifies this`created, client
      ensures client.log == old(client.log) + [Issued(config, old(State()), Op.Save(answer))]
      ensures r == answer
      ensures State() == Next(old(State()), Op.Save(answer))
    {
      if created {
        r := client.Send(UpdateCall(config.namespace, uuid, Values()), answer);
        return;
      }
      r := client.Send(CreateCall(config.namespace, Values()), answer);
      if r.Ok? {
        created := true;
      }
    }

    /** `remove()`: remove the record and, once that succeeded, mark the instance not created. */
    method Remove(client: Client, answer: Reply<JsValue>) returns (r: Reply<JsValue>)
      modifies this`created, client
      ensures client.log == old(client.log) + [Issued(config, old(State()), Op.Remove(answer))]
      ensures r == answer
      ensures State() == Next(old(State()), Op.Remove(answer))
    {
      r := client.Send(RemoveCall(config.namespace, uuid), answer);
      if r.Ok? {
        created := false;
      }
    }

    /** The static `retrieve(id)`: fetch one record and build an instance from it. */
    static method Retrieve(config: Config, client: Client, ids: Uuid.Supplier, id: string, answer: Reply<Props>)
      returns (r: Reply<Model>)
      modifies client, ids
      ensures client.log == old(client.log) + [RetrieveCall(config.namespace, id)]
      ensures answer.Err? ==> r == Err(answer.reason) && ids.drawn == old(ids.drawn)
      ensures answer.Ok? ==> r.Ok? && fresh(r.value) && r.value.config == config
      ensures answer.Ok? ==> r.value.State() == Hydrate(answer.value, old(ids.drawn))
      ensures answer.Ok? ==> ids.drawn == old(ids.drawn) + MissingIds([answer.value])
    {
      var values := client.Send(RetrieveCall(config.namespace, id), answer);
      if values.Err? {
        return Err(values.reason);
      }
      var instance := new Model(config, values.value, ids);
      return Ok(instance);
    }

    /** The static `list()`: fetch every record and build one instance per record, in the order received. */
    static method List(config: Config, client: Client, ids: Uuid.Supplier, answer: Reply<seq<Props>>)
      returns (r: Reply<seq<Model>>)
      modifies client, ids
      ensures client.log == old(client.log) + [ListCall(config.namespace)]
      ensures answer.Err? ==> r == Err(answer.reason) && ids.drawn == old(ids.drawn)
      ensures answer.Ok? ==> r.Ok? && |r.value| == |answer.value|
      ensures answer.Ok? ==> ids.drawn == old(ids.drawn) + MissingIds(answer.value)
      ensures answer.Ok? ==> forall i :: 0 <= i < |r.value| ==> fresh(r.value[i]) && r.value[i].config == config
      ensures answer.Ok? ==> forall i :: 0 <= i < |r.value| ==> r.value[i].State() == HydrateAll(answer.value, old(ids.drawn))[i]
      ensures answer.Ok? ==> forall i, j :: 0 <= i < j < |r.value| ==> r.value[i] != r.value[j]
    {
      var list := client.Send(ListCall(config.namespace), answer);
      if list.Err? {
        return Err(list.reason);
      }
      var records := list.value;
      var instances: seq<Model> := [];
      var n := 0;
      while n < |records|
        modifies ids
        invariant 0 <= n <= |records| && |instances| == n
        invariant ids.drawn == old(ids.drawn) + MissingIds(records[..n])
        invariant forall i :: 0 <= i < n ==> fresh(instances[i]) && instances[i].config == config
        invariant forall i :: 0 <= i < n ==> instances[i].State() == HydrateAll(records[..n], old(ids.drawn))[i]
        invariant forall i, j :: 0 <= i < j < n ==> instances[i] != instances[j]
      {
        var instance := new Model(config, records[n], ids);
        assert records[..n + 1][..n] == records[..n];
        instances := instances + [instance];
        n := n + 1;
      }
      assert records[..n] == records;
      return Ok(instances);
    }
  }
}
