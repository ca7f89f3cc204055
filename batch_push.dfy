/**
 * The batch push builder: an insertion-ordered map from a notification name
 * to a fragment (itself an ordered map from field key to value). A name must
 * be registered before a field can be set on it; the payload is the list of
 * fragments in registration order, without the names.
 *
 * The map is `None` until the first registration: the PHP field starts out
 * `null` and is turned into an array by the first assignment.
 */
module BatchPush {
  import opened Wrappers
  import opened OrderedMaps
  import opened Json

  /** The endpoint and the response key of a batch push. */
  const Url := "/api/push/"
  const MessagePayloadKey := "push_ids"

  type Fragment = Fields
  type Entries = Assoc<Fragment>
  type PayloadMap = Option<Entries>

  /** The two ways a builder call throws `BatchPushRequestException`. */
  datatype BatchError = NameNotString | NameNotDefined(name: string)

  /** The fields the five setters write, with the key each one writes. */
  datatype Field = Audience | Notification | DeviceTypes | Message | Options {
    function Key(): string {
      match this
      case Audience => "audience"
      case Notification => "notification"
      case DeviceTypes => "device_types"
      case Message => "message"
      case Options => "options"
    }
  }

  /** The key the duplicate guard of `pushDeviceType` reads. */
  const GuardKey := "deviceType"
  /** The key `pushDeviceType` appends under. */
  const PushKey := "deviceTypes"

  /** The map as an array: `null` behaves as the empty array for `isset` and `count`. */
  function EntriesOf(m: PayloadMap): Entries {
    m.GetOr([])
  }

  /** The registered names, in registration order. */
  function Names(m: PayloadMap): seq<string> {
    Keys(EntriesOf(m))
  }

  /** `isset($this->batchPayloadMap[$name])`: fragments are arrays, never null. */
  predicate Defined(m: PayloadMap, name: string) {
    HasKey(EntriesOf(m), name)
  }

  function FragmentOf(m: PayloadMap, name: string): Fragment
    requires Defined(m, name)
  {
    Lookup(EntriesOf(m), name).value
  }

  /** A fragment as the builder leaves it: the guard key is never written and `deviceTypes` is a list. */
  predicate WellShaped(f: Fragment) {
    && DistinctKeys(f)
    && !HasKey(f, GuardKey)
    && (Lookup(f, PushKey).Some? ==> Lookup(f, PushKey).value.List?)
  }

  /** The builder's invariant. */
  predicate WellFormed(m: PayloadMap) {
    && DistinctKeys(EntriesOf(m))
    && forall i :: 0 <= i < |EntriesOf(m)| ==> WellShaped(EntriesOf(m)[i].1)
  }

  /** `getPayloadCount`: `count` of the map (0 while it is still null). */
  function Count(m: PayloadMap): nat {
    |EntriesOf(m)|
  }

  /** The fragments in registration order, each as a JSON object. */
  function Fragments(m: PayloadMap): seq<Value> {
    var es := EntriesOf(m);
    seq(|es|, i requires 0 <= i < |es| => Obj(es[i].1))
  }

  /** `getPayload`: `array_values` of the map; `null` before anything was registered. */
  function Payload(m: PayloadMap): Value {
    if m.None? then Null else List(Fragments(m))
  }

  /**
   * `array_values`: element `i` of the payload is the fragment of the `i`-th
   * registered name, and the name itself is not part of it.
   */
  lemma PayloadAt(m: PayloadMap, i: nat)
    requires WellFormed(m) && m.Some? && i < Count(m)
    ensures Defined(m, Names(m)[i])
    ensures Payload(m).List? && |Payload(m).items| == Count(m)
    ensures Payload(m).items[i] == Obj(FragmentOf(m, Names(m)[i]))
  {
    LookupAt(EntriesOf(m), i);
  }

  /** `createNewNotification`. */
  function CreateNotification(m: PayloadMap, name: Value): (r: Result<PayloadMap, BatchError>)
    ensures r.Failure? <==> !name.Str?
    ensures r.Failure? ==> r.error == NameNotString
    ensures r.Success? ==> Defined(r.value, name.s)
    ensures r.Success? && Defined(m, name.s) ==> r.value == m
  {
    if !name.Str? then Failure(NameNotString)
    else if Defined(m, name.s) then Success(m)
    else
      PutLookup(EntriesOf(m), name.s, []);
      Success(Some(Put(EntriesOf(m), name.s, [])))
  }

  /** The five setters: overwrite one key of one registered fragment. */
  function SetField(m: PayloadMap, name: string, field: Field, value: Value): (r: Result<PayloadMap, BatchError>)
    ensures r.Failure? <==> !Defined(m, name)
    ensures r.Failure? ==> r.error == NameNotDefined(name)
    ensures r.Success? ==> Defined(r.value, name)
  {
    if !Defined(m, name) then Failure(NameNotDefined(name))
    else
      var f := Put(FragmentOf(m, name), field.Key(), value);
      PutLookup(EntriesOf(m), name, f);
      Success(Some(Put(EntriesOf(m), name, f)))
  }

  /** `isset($v[$k])` for the value the guard inspects. */
  predicate IssetAt(v: Value, k: string) {
    v.Obj? && Lookup(v.fields, k).Some? && Lookup(v.fields, k).value != Null
  }

  /** The guard of `pushDeviceType`, as written: it reads the `deviceType` key. */
  predicate DuplicateGuard(f: Fragment, deviceType: string) {
    Lookup(f, GuardKey).Some? && IssetAt(Lookup(f, GuardKey).value, deviceType)
  }

  /** `$fragment['deviceTypes'][] = $deviceType`: a missing list is created. */
  function AppendDeviceType(f: Fragment, deviceType: string): Fragment {
    var current := Lookup(f, PushKey);
    if current.Some? && current.value.List? then Put(f, PushKey, List(current.value.items + [Str(deviceType)]))
    else Put(f, PushKey, List([Str(deviceType)]))
  }

  /** `pushDeviceType`, as written. */
  function PushDeviceTypeAsWritten(m: PayloadMap, name: string, deviceType: string): (r: Result<PayloadMap, BatchError>)
    ensures r.Failure? <==> !Defined(m, name)
    ensures r.Failure? ==> r.error == NameNotDefined(name)
    ensures r.Success? ==> Defined(r.value, name)
  {
    if !Defined(m, name) then Failure(NameNotDefined(name))
    else
      var f := FragmentOf(m, name);
      if DuplicateGuard(f, deviceType) then Success(m)
      else
        PutLookup(EntriesOf(m), name, AppendDeviceType(f, deviceType));
        Success(Some(Put(EntriesOf(m), name, AppendDeviceType(f, deviceType))))
  }

  /** `resetBatchPayloadMap`: the map becomes the empty array. */
  function ResetMap(): (r: PayloadMap)
    ensures Count(r) == 0 && Payload(r) == List([])
    ensures WellFormed(r)
  {
    var r := Some([]);
    assert Fragments(r) == [];
    r
  }

  /** Index of a registered name. */
  lemma IndexOf(m: PayloadMap, name: string) returns (i: nat)
    requires Defined(m, name)
    ensures i < |EntriesOf(m)| && EntriesOf(m)[i] == (name, FragmentOf(m, name))
  {
    i :| 0 <= i < |EntriesOf(m)| && EntriesOf(m)[i] == (name, FragmentOf(m, name));
  }

  /**
   * Replacing the fragment of a registered name by a well-shaped one keeps
   * the invariant and the name order, and changes that name's payload entry only.
   */
  lemma {:induction false} ReplaceFragment(m: PayloadMap, name: string, f: Fragment)
    requires WellFormed(m) && Defined(m, name) && WellShaped(f)
    ensures var r := Some(Put(EntriesOf(m), name, f));
      && WellFormed(r)
      && Names(r) == Names(m)
      && Defined(r, name) && FragmentOf(r, name) == f
      && (forall n :: n != name ==> Lookup(EntriesOf(r), n) == Lookup(EntriesOf(m), n))
      && |Fragments(r)| == |Fragments(m)|
      && (forall i :: 0 <= i < |Fragments(m)| ==>
            Fragments(r)[i] == (if Names(m)[i] == name then Obj(f) else Fragments(m)[i]))
  {
    var es := EntriesOf(m);
    var i := IndexOf(m, name);
    PutAt(es, i, f);
    var es' := es[i := (name, f)];
    assert Put(es, name, f) == es';
    PutLookup(es, name, f);
    PutKeysPresent(es, name, f);
    PutDistinct(es, name, f);
    var r := Some(es');
    assert forall j :: 0 <= j < |es'| ==> WellShaped(es'[j].1) by {
      forall j | 0 <= j < |es'| ensures WellShaped(es'[j].1) {
        if j != i { assert es'[j] == es[j]; }
      }
    }
    forall j | 0 <= j < |es|
      ensures Fragments(r)[j] == if Names(m)[j] == name then Obj(f) else Fragments(m)[j]
    {
      if j != i {
        DistinctAt(es, i, j);
        assert es'[j] == es[j];
      }
    }
  }

  /**
   * Registering a new name appends an empty fragment at the end of the map
   * and of the name order, and keeps the invariant.
   */
  lemma {:induction false} CreateFresh(m: PayloadMap, name: string)
    requires WellFormed(m) && !Defined(m, name)
    ensures var r := CreateNotification(m, Str(name));
      && r == Success(Some(EntriesOf(m) + [(name, [])]))
      && WellFormed(r.value)
      && Names(r.value) == Names(m) + [name]
      && FragmentOf(r.value, name) == []
  {
    var es := EntriesOf(m);
    PutAbsent(es, name, []);
    PutKeysAbsent(es, name, []);
    PutDistinct(es, name, []);
    var es' := es + [(name, [])];
    assert WellShaped([]);
    assert forall j :: 0 <= j < |es'| ==> WellShaped(es'[j].1) by {
      forall j | 0 <= j < |es'| ensures WellShaped(es'[j].1) {
        if j < |es| { assert es'[j] == es[j]; }
      }
    }
    LookupAt(es', |es|);
  }

  /** Registering a new name adds one to the count and `[]` at the end of the payload. */
  lemma {:induction false} CreateFreshPayload(m: PayloadMap, name: string)
    requires !Defined(m, name)
    ensures var r := CreateNotification(m, Str(name));
      && r.Success?
      && Count(r.value) == Count(m) + 1
      && Payload(r.value) == List(Fragments(m) + [Obj([])])
  {
    var es := EntriesOf(m);
    PutAbsent(es, name, []);
    var es' := es + [(name, [])];
    var r := Some(es');
    var expected := Fragments(m) + [Obj([])];
    assert |Fragments(r)| == |expected|;
    forall j | 0 <= j < |es'| ensures Fragments(r)[j] == expected[j] {
      if j < |es| { assert es'[j] == es[j]; }
    }
    assert Fragments(r) == expected;
  }

  /** A setter replaces the fragment of its name by the fragment with one key overwritten, which stays well-shaped. */
  lemma {:induction false} SetFieldReplaces(m: PayloadMap, name: string, field: Field, value: Value)
    requires WellFormed(m) && Defined(m, name)
    ensures var f' := Put(FragmentOf(m, name), field.Key(), value);
      && SetField(m, name, field, value) == Success(Some(Put(EntriesOf(m), name, f')))
      && WellShaped(f')
      && Lookup(f', field.Key()) == Some(value)
  {
    var f := FragmentOf(m, name);
    var i := IndexOf(m, name);
    var f' := Put(f, field.Key(), value);
    PutDistinct(f, field.Key(), value);
    PutLookup(f, field.Key(), value);
    assert WellShaped(f) by { assert EntriesOf(m)[i].1 == f; }
    assert field.Key() != GuardKey && field.Key() != PushKey;
    assert Lookup(f', GuardKey) == Lookup(f, GuardKey);
    assert Lookup(f', PushKey) == Lookup(f, PushKey);
  }

  /**
   * A setter on a registered name overwrites its own key in that name's
   * fragment and nothing else: the other keys and the name order are
   * unchanged, and the invariant holds afterwards.
   */
  lemma {:induction false} SetFieldFrame(m: PayloadMap, name: string, field: Field, value: Value)
    requires WellFormed(m) && Defined(m, name)
    ensures var r := SetField(m, name, field, value);
      && r.Success?
      && WellFormed(r.value)
      && Names(r.value) == Names(m)
      && Lookup(FragmentOf(r.value, name), field.Key()) == Some(value)
      && (forall k :: k != field.Key() ==> Lookup(FragmentOf(r.value, name), k) == Lookup(FragmentOf(m, name), k))
  {
    SetFieldReplaces(m, name, field, value);
    ReplaceFragment(m, name, Put(FragmentOf(m, name), field.Key(), value));
  }

  /** A setter leaves the fragments of the other names alone, by name and by position. */
  lemma {:induction false} SetFieldOthers(m: PayloadMap, name: string, field: Field, value: Value)
    requires WellFormed(m) && Defined(m, name)
    ensures var r := SetField(m, name, field, value);
      && r.Success?
      && (forall n :: n != name ==> Lookup(EntriesOf(r.value), n) == Lookup(EntriesOf(m), n))
      && Count(r.value) == Count(m)
      && (forall i :: 0 <= i < Count(m) && Names(m)[i] != name ==> Fragments(r.value)[i] == Fragments(m)[i])
  {
    SetFieldReplaces(m, name, field, value);
    ReplaceFragment(m, name, Put(FragmentOf(m, name), field.Key(), value));
  }

  /**
   * `pushDeviceType` as written: on a registered name the guard never fires
   * (nothing writes `deviceType`), so the value is always appended to the
   * `deviceTypes` list, and `device_types` is left alone.
   */
  lemma {:induction false} PushAppendsAsWritten(m: PayloadMap, name: string, deviceType: string)
    requires WellFormed(m) && Defined(m, name)
    ensures !DuplicateGuard(FragmentOf(m, name), deviceType)
    ensures var r := PushDeviceTypeAsWritten(m, name, deviceType);
      var before := Lookup(FragmentOf(m, name), PushKey);
      && r.Success?
      && WellFormed(r.value)
      && Names(r.value) == Names(m)
      && Lookup(FragmentOf(r.value, name), PushKey)
         == Some(List((if before.Some? then before.value.items else []) + [Str(deviceType)]))
      && Lookup(FragmentOf(r.value, name), Field.DeviceTypes.Key()) == Lookup(FragmentOf(m, name), Field.DeviceTypes.Key())
      && (forall k :: k != PushKey ==> Lookup(FragmentOf(r.value, name), k) == Lookup(FragmentOf(m, name), k))
      && (forall n :: n != name ==> Lookup(EntriesOf(r.value), n) == Lookup(EntriesOf(m), n))
  {
    assert |Field.DeviceTypes.Key()| != |PushKey|;
    var f := FragmentOf(m, name);
    var i := IndexOf(m, name);
    assert WellShaped(f) by { assert EntriesOf(m)[i].1 == f; }
    var current := Lookup(f, PushKey);
    var list := List((if current.Some? then current.value.items else []) + [Str(deviceType)]);
    var f' := Put(f, PushKey, list);
    assert current.Some? ==> current.value.List?;
    if current.Some? {
      assert list == List(current.value.items + [Str(deviceType)]);
    } else {
      assert list == List([Str(deviceType)]);
    }
    assert AppendDeviceType(f, deviceType) == f';
    PutDistinct(f, PushKey, list);
    PutLookup(f, PushKey, list);
    assert Lookup(f', GuardKey) == Lookup(f, GuardKey);
    assert WellShaped(f');
    ReplaceFragment(m, name, f');
  }

  /**
   * Pushing the same device type twice keeps both copies, under `deviceTypes`,
   * and leaves `device_types` (the key the setter writes and the service reads) alone.
   */
  lemma {:induction false} PushTwiceKeepsDuplicate(m: PayloadMap, name: string, deviceType: string)
    requires WellFormed(m) && Defined(m, name) && !HasKey(FragmentOf(m, name), PushKey)
    ensures var once := PushDeviceTypeAsWritten(m, name, deviceType);
      && once.Success?
      && var twice := PushDeviceTypeAsWritten(once.value, name, deviceType);
      && twice.Success?
      && Lookup(FragmentOf(twice.value, name), PushKey) == Some(List([Str(deviceType), Str(deviceType)]))
      && Lookup(FragmentOf(twice.value, name), Field.DeviceTypes.Key()) == Lookup(FragmentOf(m, name), Field.DeviceTypes.Key())
  {
    var x := Str(deviceType);
    assert [] + [x] == [x] && [x] + [x] == [x, x];
    var dt := Field.DeviceTypes.Key();
    var once := PushDeviceTypeAsWritten(m, name, deviceType);
    assert once.Success? && WellFormed(once.value) && Defined(once.value, name)
      && Lookup(FragmentOf(once.value, name), PushKey) == Some(List([x]))
      && Lookup(FragmentOf(once.value, name), dt) == Lookup(FragmentOf(m, name), dt) by {
      PushAppendsAsWritten(m, name, deviceType);
    }
    PushAgain(once.value, name, deviceType, [x]);
  }

  /** The step of `PushTwiceKeepsDuplicate` for a name whose `deviceTypes` list is already set. */
  lemma PushAgain(m: PayloadMap, name: string, deviceType: string, xs: seq<Value>)
    requires WellFormed(m) && Defined(m, name) && Lookup(FragmentOf(m, name), PushKey) == Some(List(xs))
    ensures var r := PushDeviceTypeAsWritten(m, name, deviceType);
      && r.Success?
      && Lookup(FragmentOf(r.value, name), PushKey) == Some(List(xs + [Str(deviceType)]))
      && Lookup(FragmentOf(r.value, name), Field.DeviceTypes.Key()) == Lookup(FragmentOf(m, name), Field.DeviceTypes.Key())
  {
    PushAppendsAsWritten(m, name, deviceType);
  }

  /** The device-type list of a fragment's `device_types` key (empty when it is not a list). */
  function DeviceTypeList(f: Fragment): seq<Value> {
    var current := Lookup(f, Field.DeviceTypes.Key());
    if current.Some? && current.value.List? then current.value.items else []
  }

  /**
   * `pushDeviceType` as evidently intended: add the type to `device_types`
   * unless it is already there. A `device_types` that is not a list (a
   * single value such as `"all"`) counts as the empty list, so it is
   * replaced by the one-element list of the pushed type.
   */
  function PushDeviceTypeDeduped(m: PayloadMap, name: string, deviceType: string): (r: Result<PayloadMap, BatchError>)
    ensures r.Failure? <==> !Defined(m, name)
    ensures r.Failure? ==> r.error == NameNotDefined(name)
  {
    if !Defined(m, name) then Failure(NameNotDefined(name))
    else
      var f := FragmentOf(m, name);
      var xs := DeviceTypeList(f);
      if Str(deviceType) in xs then Success(m)
      else Success(Some(Put(EntriesOf(m), name, Put(f, Field.DeviceTypes.Key(), List(xs + [Str(deviceType)])))))
  }

  /**
   * The corrected push is a set union that keeps first-seen order: a new type
   * is appended at the end, a known one changes nothing.
   */
  lemma {:induction false} DedupedIsOrderedUnion(m: PayloadMap, name: string, deviceType: string)
    requires WellFormed(m) && Defined(m, name)
    ensures var xs := DeviceTypeList(FragmentOf(m, name));
      var r := PushDeviceTypeDeduped(m, name, deviceType);
      && r.Success?
      && WellFormed(r.value)
      && Names(r.value) == Names(m)
      && DeviceTypeList(FragmentOf(r.value, name)) == (if Str(deviceType) in xs then xs else xs + [Str(deviceType)])
      && (forall k :: k != Field.DeviceTypes.Key() ==> Lookup(FragmentOf(r.value, name), k) == Lookup(FragmentOf(m, name), k))
      && (forall n :: n != name ==> Lookup(EntriesOf(r.value), n) == Lookup(EntriesOf(m), n))
  {
    var f := FragmentOf(m, name);
    var xs := DeviceTypeList(f);
    if Str(deviceType) !in xs {
      SetFieldFrame(m, name, Field.DeviceTypes, List(xs + [Str(deviceType)]));
      SetFieldOthers(m, name, Field.DeviceTypes, List(xs + [Str(deviceType)]));
    }
  }

  /** Pushing the same type twice with the corrected push equals pushing it once. */
  lemma {:induction false} DedupedIdempotent(m: PayloadMap, name: string, deviceType: string)
    requires WellFormed(m) && Defined(m, name)
    ensures var once := PushDeviceTypeDeduped(m, name, deviceType);
      once.Success? && PushDeviceTypeDeduped(once.value, name, deviceType) == once
  {
    DedupedIsOrderedUnion(m, name, deviceType);
  }

  /** One builder call, as a client would make it. */
  datatype Op =
    | Create(name: Value)
    | Set(target: string, field: Field, value: Value)
    | PushType(target: string, deviceType: string)
    | Reset

  function Apply(m: PayloadMap, op: Op): Result<PayloadMap, BatchError> {
    match op
    case Create(name) => CreateNotification(m, name)
    case Set(target, field, value) => SetField(m, target, field, value)
    case PushType(target, deviceType) => PushDeviceTypeAsWritten(m, target, deviceType)
    case Reset => Success(ResetMap())
  }

  /** A sequence of calls; the first one that throws ends the run. */
  function Run(m: PayloadMap, ops: seq<Op>): Result<PayloadMap, BatchError>
    decreases |ops|
  {
    if ops == [] then Success(m)
    else
      match Apply(m, ops[0])
      case Failure(e) => Failure(e)
      case Success(m') => Run(m', ops[1..])
  }

  /**
   * The order in which a sequence of calls registers names, from a starting
   * list: a name joins at the end the first time it is created, and a reset
   * forgets them all.
   */
  function RegistrationOrder(names: seq<string>, ops: seq<Op>): seq<string>
    decreases |ops|
  {
    if ops == [] then names
    else
      var next :=
        match ops[0]
        case Create(name) => if name.Str? && name.s !in names then names + [name.s] else names
        case Reset => []
        case _ => names;
      RegistrationOrder(next, ops[1..])
  }

  /** One call keeps the invariant and moves the names as `RegistrationOrder` says. */
  lemma {:induction false} ApplyStep(m: PayloadMap, op: Op)
    requires WellFormed(m)
    ensures Apply(m, op).Success? ==>
      && WellFormed(Apply(m, op).value)
      && Names(Apply(m, op).value) == RegistrationOrder(Names(m), [op])
  {
    assert RegistrationOrder(Names(m), [op]) == RegistrationOrder(RegistrationOrder(Names(m), [op]), []);
    match op
    case Create(name) =>
      if name.Str? && !Defined(m, name.s) {
        CreateFresh(m, name.s);
      }
    case Set(target, field, value) =>
      if Defined(m, target) {
        SetFieldFrame(m, target, field, value);
      }
    case PushType(target, deviceType) =>
      if Defined(m, target) {
        PushAppendsAsWritten(m, target, deviceType);
      }
    case Reset =>
  }

  /**
   * After any run of calls that does not throw, the payload holds exactly one
   * fragment per name, in the order the names were first registered since the
   * last reset.
   */
  lemma {:induction false} RunFollowsRegistrationOrder(m: PayloadMap, ops: seq<Op>)
    requires WellFormed(m)
    decreases |ops|
    ensures var r := Run(m, ops);
      r.Success? ==>
        && WellFormed(r.value)
        && Names(r.value) == RegistrationOrder(Names(m), ops)
        && Count(r.value) == |RegistrationOrder(Names(m), ops)|
  {
    if ops != [] {
      ApplyStep(m, ops[0]);
      var step := Apply(m, ops[0]);
      if step.Success? {
        RunFollowsRegistrationOrder(step.value, ops[1..]);
      }
    }
  }

  /**
   * The builder object. Every call either throws (a `Fail` or `Failure`
   * result, with the map untouched) or updates the map as the pure function
   * of the same name says; `Valid` is the invariant every call keeps.
   */
  class BatchPushRequest {
    var payloadMap: PayloadMap

    ghost predicate Valid()
      reads this
    {
      WellFormed(payloadMap)
    }

    /** The map starts out `null`. */
    constructor ()
      ensures payloadMap == None && Valid()
    {
      payloadMap := None;
    }

    /** `getPayload`. */
    function GetPayload(): (v: Value)
      reads this
      ensures v == Null <==> payloadMap.None?
      ensures v.List? ==> |v.items| == GetPayloadCount()
    {
      Payload(payloadMap)
    }

    /** `getPayloadCount`: one per registered name. */
    function GetPayloadCount(): (n: nat)
      reads this
      ensures n == |Names(payloadMap)|
    {
      Count(payloadMap)
    }

    /** `validateNotificationName`: throws unless the name is registered. */
    method ValidateNotificationName(name: string) returns (r: Outcome<BatchError>)
      ensures r.Fail? <==> !Defined(payloadMap, name)
      ensures r.Fail? ==> r.error == NameNotDefined(name)
    {
      if !Defined(payloadMap, name) {
        return Fail(NameNotDefined(name));
      }
      return Pass;
    }

    /** `createNewNotification`. */
    method CreateNewNotification(name: Value) returns (r: Outcome<BatchError>)
      requires Valid()
      modifies this
      ensures Valid()
      ensures var c := CreateNotification(old(payloadMap), name);
        && (c.Failure? ==> r == Fail(c.error) && payloadMap == old(payloadMap))
        && (c.Success? ==> r == Pass && payloadMap == c.value)
    {
      if !name.Str? {
        return Fail(NameNotString);
      }
      if Defined(payloadMap, name.s) {
        return Pass;
      }
      ApplyStep(payloadMap, Create(name));
      payloadMap := Some(Put(EntriesOf(payloadMap), name.s, []));
      r := Pass;
    }

    /** The body the five setters share: validate the name, then overwrite one key. */
    method SetKey(name: string, field: Field, value: Value) returns (r: Result<BatchPushRequest, BatchError>)
      requires Valid()
      modifies this
      ensures Valid()
      ensures var s := SetField(old(payloadMap), name, field, value);
        && (s.Failure? ==> r == Failure(s.error) && payloadMap == old(payloadMap))
        && (s.Success? ==> r == Success(this) && payloadMap == s.value)
    {
      var v := ValidateNotificationName(name);
      if v.Fail? {
        return Failure(v.error);
      }
      SetFieldFrame(payloadMap, name, field, value);
      payloadMap := Some(Put(EntriesOf(payloadMap), name, Put(FragmentOf(payloadMap, name), field.Key(), value)));
      r := Success(this);
    }

    /** `setAudience`. */
    method SetAudience(name: string, audience: Value) returns (r: Result<BatchPushRequest, BatchError>)
      requires Valid()
      modifies this
      ensures Valid()
      ensures var s := SetField(old(payloadMap), name, Audience, audience);
        && (s.Failure? ==> r == Failure(s.error) && payloadMap == old(payloadMap))
        && (s.Success? ==> r == Success(this) && payloadMap == s.value)
    {
      r := SetKey(name, Audience, audience);
    }

    /** `setNotification`: the argument is declared `array`. */
    method SetNotification(name: string, notification: Value) returns (r: Result<BatchPushRequest, BatchError>)
      requires Valid() && notification.IsArray()
      modifies this
      ensures Valid()
      ensures var s := SetField(old(payloadMap), name, Notification, notification);
        && (s.Failure? ==> r == Failure(s.error) && payloadMap == old(payloadMap))
        && (s.Success? ==> r == Success(this) && payloadMap == s.value)
    {
      r := SetKey(name, Notification, notification);
    }

    /** `setDeviceTypes`. */
    method SetDeviceTypes(name: string, deviceTypes: Value) returns (r: Result<BatchPushRequest, BatchError>)
      requires Valid()
      modifies this
      ensures Valid()
      ensures var s := SetField(old(payloadMap), name, DeviceTypes, deviceTypes);
        && (s.Failure? ==> r == Failure(s.error) && payloadMap == old(payloadMap))
        && (s.Success? ==> r == Success(this) && payloadMap == s.value)
    {
      r := SetKey(name, DeviceTypes, deviceTypes);
    }

    /** `setMessage`: the argument is declared `array`. */
    method SetMessage(name: string, message: Value) returns (r: Result<BatchPushRequest, BatchError>)
      requires Valid() && message.IsArray()
      modifies this
      ensures Valid()
      ensures var s := SetField(old(payloadMap), name, Message, message);
        && (s.Failure? ==> r == Failure(s.error) && payloadMap == old(payloadMap))
        && (s.Success? ==> r == Success(this) && payloadMap == s.value)
    {
      r := SetKey(name, Message, message);
    }

    /** `setOptions`: the argument is declared `array`. */
    method SetOptions(name: string, options: Value) returns (r: Result<BatchPushRequest, BatchError>)
      requires Valid() && options.IsArray()
      modifies this
      ensures Valid()
      ensures var s := SetField(old(payloadMap), name, Options, options);
        && (s.Failure? ==> r == Failure(s.error) && payloadMap == old(payloadMap))
        && (s.Success? ==> r == Success(this) && payloadMap == s.value)
    {
      r := SetKey(name, Options, options);
    }

    /** `pushDeviceType`, as written. */
    method PushDeviceType(name: string, deviceType: string) returns (r: Result<BatchPushRequest, BatchError>)
      requires Valid()
      modifies this
      ensures Valid()
      ensures var p := PushDeviceTypeAsWritten(old(payloadMap), name, deviceType);
        && (p.Failure? ==> r == Failure(p.error) && payloadMap == old(payloadMap))
        && (p.Success? ==> r == Success(this) && payloadMap == p.value)
    {
      var v := ValidateNotificationName(name);
      if v.Fail? {
        return Failure(v.error);
      }
      var f := FragmentOf(payloadMap, name);
      if DuplicateGuard(f, deviceType) {
        return Success(this);
      }
      PushAppendsAsWritten(payloadMap, name, deviceType);
      payloadMap := Some(Put(EntriesOf(payloadMap), name, AppendDeviceType(f, deviceType)));
      r := Success(this);
    }

    /** `resetBatchPayloadMap`. */
    method ResetBatchPayloadMap()
      requires Valid()
      modifies this
      ensures Valid() && payloadMap == ResetMap()
    {
      payloadMap := ResetMap();
    }
  }
}
