/** The batch of two notifications that the repository's batch test builds. */
module BatchPushExample {
  import opened Wrappers
  import opened OrderedMaps
  import opened Json
  import opened BatchPush

  function Alias(a: string): Value { Obj([("alias", Str(a))]) }
  function Message(text: string): Value { Obj([("message", Str(text))]) }

  /** The calls the test makes for one notification. */
  function Calls(name: string, alias: string, text: string, deviceType: string): seq<Op> {
    [Create(Str(name))]
    + ([Set(name, Audience, Alias(alias))]
    + ([Set(name, Notification, Message(text))]
    + [Set(name, DeviceTypes, List([Str(deviceType)]))]))
  }

  /** The fragment those calls leave behind, keys in the order they were set. */
  function Expected(alias: string, text: string, deviceType: string): Fragment {
    [(Audience.Key(), Alias(alias)), (Notification.Key(), Message(text)), (DeviceTypes.Key(), List([Str(deviceType)]))]
  }

  /** A run of two parts is the first part followed by the second. */
  lemma {:induction false} RunAppend(m: PayloadMap, a: seq<Op>, b: seq<Op>)
    decreases |a|
    ensures Run(m, a + b) == if Run(m, a).Success? then Run(Run(m, a).value, b) else Run(m, a)
  {
    if a == [] {
      assert a + b == b;
    } else {
      assert (a + b)[0] == a[0] && (a + b)[1..] == a[1..] + b;
      if Apply(m, a[0]).Success? {
        RunAppend(Apply(m, a[0]).value, a[1..], b);
      }
    }
  }

  /** Setting a new key on the most recently registered name appends it to that fragment. */
  lemma {:induction false} SetOnLast(es: Entries, name: string, f: Fragment, field: Field, value: Value)
    requires !HasKey(es, name) && !HasKey(f, field.Key())
    ensures SetField(Some(es + [(name, f)]), name, field, value) == Success(Some(es + [(name, f + [(field.Key(), value)])]))
  {
    KeysAppend(es, name, f);
    LookupLast(es, name, f);
    PutAbsent(f, field.Key(), value);
    PutLast(es, name, f, f + [(field.Key(), value)]);
  }

  lemma NoDeviceTypesYet(audience: Value, notification: Value)
    ensures !HasKey([(Audience.Key(), audience), (Notification.Key(), notification)], DeviceTypes.Key())
  {
    assert "notification"[0] != "device_types"[0];
  }

  /** A call that succeeds hands its state to the rest of the run. */
  lemma RunCons(m: PayloadMap, op: Op, rest: seq<Op>, m1: PayloadMap)
    requires Apply(m, op) == Success(m1)
    ensures Run(m, [op] + rest) == Run(m1, rest)
  {
    assert ([op] + rest)[0] == op && ([op] + rest)[1..] == rest;
  }

  /** Four calls that each succeed leave the state the last one produced. */
  lemma RunFour(m: PayloadMap, o0: Op, o1: Op, o2: Op, o3: Op, m1: PayloadMap, m2: PayloadMap, m3: PayloadMap, m4: PayloadMap)
    requires Apply(m, o0) == Success(m1) && Apply(m1, o1) == Success(m2)
    requires Apply(m2, o2) == Success(m3) && Apply(m3, o3) == Success(m4)
    ensures Run(m, [o0] + ([o1] + ([o2] + [o3]))) == Success(m4)
  {
    assert Run(m3, [o3]) == Success(m4) by {
      assert [o3][1..] == [];
    }
    RunCons(m2, o2, [o3], m3);
    RunCons(m1, o1, [o2] + [o3], m2);
    RunCons(m, o0, [o1] + ([o2] + [o3]), m1);
  }

  /** Registering a name the map does not hold appends an empty fragment. */
  lemma CreateOnNew(m: PayloadMap, name: string)
    requires !Defined(m, name)
    ensures Apply(m, Create(Str(name))) == Success(Some(EntriesOf(m) + [(name, [])]))
  {
    PutAbsent(EntriesOf(m), name, []);
  }

  /** The calls for a new name append its finished fragment to the map. */
  lemma {:induction false} RunCalls(m: PayloadMap, name: string, alias: string, text: string, deviceType: string)
    requires !Defined(m, name)
    ensures Run(m, Calls(name, alias, text, deviceType)) == Success(Some(EntriesOf(m) + [(name, Expected(alias, text, deviceType))]))
  {
    var es := EntriesOf(m);
    var v1, v2, v3 := Alias(alias), Message(text), List([Str(deviceType)]);
    var f1 := [(Audience.Key(), v1)];
    var f2 := f1 + [(Notification.Key(), v2)];
    var f3 := f2 + [(DeviceTypes.Key(), v3)];
    assert [] + f1 == f1;
    assert f2 == [(Audience.Key(), v1), (Notification.Key(), v2)];
    assert f3 == Expected(alias, text, deviceType);
    CreateOnNew(m, name);
    SetOnLast(es, name, [], Audience, v1);
    assert "audience"[0] != "notification"[0];
    SetOnLast(es, name, f1, Notification, v2);
    NoDeviceTypesYet(v1, v2);
    SetOnLast(es, name, f2, DeviceTypes, v3);
    RunFour(m, Create(Str(name)), Set(name, Audience, v1), Set(name, Notification, v2), Set(name, DeviceTypes, v3),
            Some(es + [(name, [])]), Some(es + [(name, f1)]), Some(es + [(name, f2)]), Some(es + [(name, f3)]));
  }

  /** The calls for the first name, on a map that was never created. */
  lemma FirstNotification(name1: string, alias1: string, text1: string, type1: string, name2: string)
    requires name1 != name2
    ensures var m1 := Some([(name1, Expected(alias1, text1, type1))]);
      && Run(None, Calls(name1, alias1, text1, type1)) == Success(m1)
      && WellFormed(m1) && !Defined(m1, name2)
  {
    var a := Calls(name1, alias1, text1, type1);
    var e1 := (name1, Expected(alias1, text1, type1));
    RunCalls(None, name1, alias1, text1, type1);
    assert [] + [e1] == [e1];
    RunFollowsRegistrationOrder(None, a);
  }

  /** The calls for a second name, after the first one's. */
  lemma SecondNotification(e1: (string, Fragment), name2: string, alias2: string, text2: string, type2: string)
    requires WellFormed(Some([e1])) && !Defined(Some([e1]), name2)
    ensures Run(Some([e1]), Calls(name2, alias2, text2, type2)) == Success(Some([e1, (name2, Expected(alias2, text2, type2))]))
  {
    RunCalls(Some([e1]), name2, alias2, text2, type2);
    assert [e1] + [(name2, Expected(alias2, text2, type2))] == [e1, (name2, Expected(alias2, text2, type2))];
  }

  /** A map of two entries counts two and sends their fragments in order. */
  lemma TwoFragments(e1: (string, Fragment), e2: (string, Fragment))
    ensures Count(Some([e1, e2])) == 2
    ensures Payload(Some([e1, e2])) == List([Obj(e1.1), Obj(e2.1)])
  {
    assert Fragments(Some([e1, e2])) == [Obj(e1.1), Obj(e2.1)];
  }

  /**
   * The test's batch, for any two distinct names: two notifications, each
   * with an audience, a notification and a one-element device-type list,
   * give the two fragments in the order the names were created, keys in the
   * order they were set, names left out. (The test uses the names
   * `some_notification_identifier_1` and `_2`, aliases `some_alias_1` and
   * `_2`, messages `Some message 1` and `2`, and the types `ios` and `android`.)
   */
  lemma BatchOfTwo(name1: string, alias1: string, text1: string, type1: string,
                   name2: string, alias2: string, text2: string, type2: string)
    requires name1 != name2
    ensures var r := Run(None, Calls(name1, alias1, text1, type1) + Calls(name2, alias2, text2, type2));
      && r.Success?
      && Count(r.value) == 2
      && Payload(r.value) == List([Obj(Expected(alias1, text1, type1)), Obj(Expected(alias2, text2, type2))])
  {
    var a := Calls(name1, alias1, text1, type1);
    var b := Calls(name2, alias2, text2, type2);
    var e1 := (name1, Expected(alias1, text1, type1));
    var e2 := (name2, Expected(alias2, text2, type2));
    FirstNotification(name1, alias1, text1, type1, name2);
    SecondNotification(e1, name2, alias2, text2, type2);
    RunAppend(None, a, b);
    TwoFragments(e1, e2);
  }
}
