/**
 * The single push builder: a record of five fields, each `null` until its
 * setter is called, and a payload that always carries the first three and
 * carries `message` and `options` only when they are not `null`.
 */
module Push {
  import opened Wrappers
  import opened OrderedMaps
  import opened Json

  /** The endpoint and the response key of a single push. */
  const Url := "/api/push/"
  const MessagePayloadKey := "push_ids"

  /** The three keys every payload starts with, in order. */
  const FixedKeys: seq<string> := ["audience", "notification", "device_types"]

  /**
   * `getPayload` over the field values: the three fixed keys, then each
   * optional key assigned only when its value is not `null`.
   */
  function PayloadOf(audience: Value, notification: Value, deviceTypes: Value, message: Value, options: Value): Fields {
    var payload := [("audience", audience), ("notification", notification), ("device_types", deviceTypes)];
    var payload := if message != Null then Put(payload, "message", message) else payload;
    if options != Null then Put(payload, "options", options) else payload
  }

  /** The key order a payload should have: the fixed keys, then `message` and `options` when set. */
  function PayloadKeys(hasMessage: bool, hasOptions: bool): seq<string> {
    FixedKeys + (if hasMessage then ["message"] else []) + (if hasOptions then ["options"] else [])
  }

  /** Three entries under distinct keys: keys in order, each reading back its value. */
  lemma ThreeEntries<V>(k1: string, k2: string, k3: string, v1: V, v2: V, v3: V)
    requires k1 != k2 && k1 != k3 && k2 != k3
    ensures var base := [(k1, v1), (k2, v2), (k3, v3)];
      && Keys(base) == [k1, k2, k3] && DistinctKeys(base)
      && Lookup(base, k1) == Some(v1) && Lookup(base, k2) == Some(v2) && Lookup(base, k3) == Some(v3)
  {
    var base := [(k1, v1), (k2, v2), (k3, v3)];
    var t := [(k2, v2), (k3, v3)];
    assert base[1..] == t && t[1..] == [(k3, v3)];
    assert Keys(t) == [k2, k3];
    assert !HasKey(t[1..], k2) && !HasKey(t, k1);
    assert t[1..][1..] == [];
    assert DistinctKeys(t[1..]) && DistinctKeys(t);
  }

  /**
   * The shape of a payload built like `getPayload` builds it, over any five
   * distinct keys: three entries, then two assignments, each made only when
   * its flag is set.
   */
  lemma {:induction false} ShapeOver<V>(k1: string, k2: string, k3: string, k4: string, k5: string,
                                        v1: V, v2: V, v3: V, v4: V, v5: V, b4: bool, b5: bool)
    requires k1 != k2 && k1 != k3 && k1 != k4 && k1 != k5 && k2 != k3 && k2 != k4 && k2 != k5
    requires k3 != k4 && k3 != k5 && k4 != k5
    ensures var base := [(k1, v1), (k2, v2), (k3, v3)];
      var withFourth := if b4 then Put(base, k4, v4) else base;
      var p := if b5 then Put(withFourth, k5, v5) else withFourth;
      && Keys(p) == [k1, k2, k3] + (if b4 then [k4] else []) + (if b5 then [k5] else [])
      && DistinctKeys(p)
      && Lookup(p, k1) == Some(v1) && Lookup(p, k2) == Some(v2) && Lookup(p, k3) == Some(v3)
      && Lookup(p, k4) == (if b4 then Some(v4) else None)
      && Lookup(p, k5) == (if b5 then Some(v5) else None)
  {
    var base := [(k1, v1), (k2, v2), (k3, v3)];
    ThreeEntries(k1, k2, k3, v1, v2, v3);
    assert !HasKey(base, k4) && !HasKey(base, k5) by {
      assert k4 !in [k1, k2, k3] && k5 !in [k1, k2, k3];
    }
    var withFourth := if b4 then Put(base, k4, v4) else base;
    var four: seq<string> := if b4 then [k4] else [];
    var five: seq<string> := if b5 then [k5] else [];
    assert && Keys(withFourth) == [k1, k2, k3] + four && DistinctKeys(withFourth)
      && Lookup(withFourth, k1) == Some(v1) && Lookup(withFourth, k2) == Some(v2) && Lookup(withFourth, k3) == Some(v3)
      && Lookup(withFourth, k4) == (if b4 then Some(v4) else None)
      && !HasKey(withFourth, k5) by {
      if b4 {
        PutNew(base, k4, v4);
        assert k5 !in [k1, k2, k3] + [k4];
      } else {
        assert [k1, k2, k3] + four == [k1, k2, k3];
      }
    }
    if b5 {
      PutNew(withFourth, k5, v5);
    } else {
      assert [k1, k2, k3] + four + five == [k1, k2, k3] + four;
    }
  }

  /**
   * The payload's keys come in the order fixed keys, `message`, `options`,
   * with each optional key present exactly when its value is not `null`;
   * every key reads back the field it was taken from.
   */
  lemma PayloadShape(audience: Value, notification: Value, deviceTypes: Value, message: Value, options: Value)
    ensures var p := PayloadOf(audience, notification, deviceTypes, message, options);
      && Keys(p) == PayloadKeys(message != Null, options != Null)
      && DistinctKeys(p)
      && Lookup(p, "audience") == Some(audience)
      && Lookup(p, "notification") == Some(notification)
      && Lookup(p, "device_types") == Some(deviceTypes)
      && Lookup(p, "message") == (if message != Null then Some(message) else None)
      && Lookup(p, "options") == (if options != Null then Some(options) else None)
  {
    assert "notification"[0] != "device_types"[0] && "message"[0] != "options"[0];
    ShapeOver("audience", "notification", "device_types", "message", "options",
              audience, notification, deviceTypes, message, options, message != Null, options != Null);
  }

  /** `new PushRequest`: five fields, all `null` until set; the setters return the object itself. */
  class PushRequest {
    var audience: Value
    var notification: Value
    var deviceTypes: Value
    var message: Value
    var options: Value

    constructor ()
      ensures audience == Null && notification == Null && deviceTypes == Null
      ensures message == Null && options == Null
    {
      audience := Null;
      notification := Null;
      deviceTypes := Null;
      message := Null;
      options := Null;
    }

    /**
     * `getPayload`: the three fixed keys always, then `message` and
     * `options` exactly when they are set (not `null`), each key holding its
     * field. It reads the object and changes nothing.
     */
    function GetPayload(): (p: Fields)
      reads this
      ensures Keys(p) == PayloadKeys(message != Null, options != Null)
      ensures DistinctKeys(p)
      ensures Lookup(p, "audience") == Some(audience)
      ensures Lookup(p, "notification") == Some(notification)
      ensures Lookup(p, "device_types") == Some(deviceTypes)
      ensures Lookup(p, "message") == (if message != Null then Some(message) else None)
      ensures Lookup(p, "options") == (if options != Null then Some(options) else None)
    {
      PayloadShape(audience, notification, deviceTypes, message, options);
      PayloadOf(audience, notification, deviceTypes, message, options)
    }

    /** `setAudience`. */
    method SetAudience(v: Value) returns (r: PushRequest)
      modifies this
      ensures r == this && audience == v
      ensures notification == old(notification) && deviceTypes == old(deviceTypes)
      ensures message == old(message) && options == old(options)
    {
      audience := v;
      r := this;
    }

    /** `setNotification`: the argument is declared `array`. */
    method SetNotification(v: Value) returns (r: PushRequest)
      requires v.IsArray()
      modifies this
      ensures r == this && notification == v
      ensures audience == old(audience) && deviceTypes == old(deviceTypes)
      ensures message == old(message) && options == old(options)
    {
      notification := v;
      r := this;
    }

    /** `setDeviceTypes`. */
    method SetDeviceTypes(v: Value) returns (r: PushRequest)
      modifies this
      ensures r == this && deviceTypes == v
      ensures audience == old(audience) && notification == old(notification)
      ensures message == old(message) && options == old(options)
    {
      deviceTypes := v;
      r := this;
    }

    /** `setMessage`: the argument is declared `array`, so the field is no longer `null`. */
    method SetMessage(v: Value) returns (r: PushRequest)
      requires v.IsArray()
      modifies this
      ensures r == this && message == v
      ensures audience == old(audience) && notification == old(notification)
      ensures deviceTypes == old(deviceTypes) && options == old(options)
    {
      message := v;
      r := this;
    }

    /** `setOptions`: the argument is declared `array`, so the field is no longer `null`. */
    method SetOptions(v: Value) returns (r: PushRequest)
      requires v.IsArray()
      modifies this
      ensures r == this && options == v
      ensures audience == old(audience) && notification == old(notification)
      ensures deviceTypes == old(deviceTypes) && message == old(message)
    {
      options := v;
      r := this;
    }
  }

  /**
   * The call chain of the repository's push test: audience, notification,
   * device types and an empty options array. The empty array still puts
   * `options` in the payload, and `message`, never set, stays out.
   */
  method ChainWithEmptyOptions(audience: Value, notification: Value, deviceTypes: Value) returns (p: Fields)
    requires notification.IsArray()
    ensures Keys(p) == PayloadKeys(false, true)
    ensures Lookup(p, "options") == Some(Obj([]))
    ensures Lookup(p, "message") == None
  {
    var push := new PushRequest();
    push := push.SetAudience(audience);
    push := push.SetNotification(notification);
    push := push.SetDeviceTypes(deviceTypes);
    push := push.SetOptions(Obj([]));
    p := push.GetPayload();
  }
}
