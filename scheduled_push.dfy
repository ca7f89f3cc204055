/**
 * The scheduled push builder: a schedule, an optional name and a wrapped
 * single push, whose payload is taken from the wrapped push when the
 * scheduled payload is built.
 */
module ScheduledPush {
  import opened Wrappers
  import opened OrderedMaps
  import opened Json
  import opened Push

  /** The endpoint and the response key of a scheduled push. */
  const Url := "/api/schedules/"
  const MessagePayloadKey := "schedule_urls"

  /** Why `getPayload` cannot build a payload: `$this->push` holds no push request object. */
  datatype ScheduleError = PushNotSet | PushNotAnObject

  /** `getPayload` over the field values and the wrapped push's payload. */
  function ScheduledPayloadOf(schedule: Value, push: Fields, name: Value): Fields {
    var payload := [("schedule", schedule), ("push", Obj(push))];
    if name != Null then Put(payload, "name", name) else payload
  }

  /** The key order a scheduled payload should have: `schedule`, `push`, then `name` when set. */
  function ScheduleKeys(hasName: bool): seq<string> {
    ["schedule", "push"] + (if hasName then ["name"] else [])
  }

  /** Two entries under distinct keys, then a third assigned only when its flag is set. */
  lemma {:induction false} TwoThenOne<V>(k1: string, k2: string, k3: string, v1: V, v2: V, v3: V, b3: bool)
    requires k1 != k2 && k1 != k3 && k2 != k3
    ensures var base := [(k1, v1), (k2, v2)];
      var p := if b3 then Put(base, k3, v3) else base;
      && Keys(p) == [k1, k2] + (if b3 then [k3] else [])
      && DistinctKeys(p)
      && Lookup(p, k1) == Some(v1) && Lookup(p, k2) == Some(v2)
      && Lookup(p, k3) == (if b3 then Some(v3) else None)
  {
    var base := [(k1, v1), (k2, v2)];
    assert Keys(base) == [k1, k2] && DistinctKeys(base) && Lookup(base, k2) == Some(v2) by {
      assert base[1..] == [(k2, v2)] && base[1..][1..] == [];
    }
    assert !HasKey(base, k3) by {
      assert k3 !in [k1, k2];
    }
    if b3 {
      PutNew(base, k3, v3);
    } else {
      assert [k1, k2] + [] == [k1, k2];
    }
  }

  /**
   * A scheduled payload holds `schedule` then `push`, and `name` last
   * exactly when the name is not `null`; `push` holds the wrapped push's
   * payload.
   */
  lemma ScheduledShape(schedule: Value, push: Fields, name: Value)
    ensures var p := ScheduledPayloadOf(schedule, push, name);
      && Keys(p) == ScheduleKeys(name != Null)
      && DistinctKeys(p)
      && Lookup(p, "schedule") == Some(schedule)
      && Lookup(p, "push") == Some(Obj(push))
      && Lookup(p, "name") == (if name != Null then Some(name) else None)
  {
    assert |"schedule"| != |"push"| && |"schedule"| != |"name"| && "push"[0] != "name"[0];
    TwoThenOne("schedule", "push", "name", schedule, Obj(push), name, name != Null);
  }

  /**
   * `getPayload` as the declared type of `setPush` lets it run: the stored
   * push is an array or `null`, never an object. PHP refuses a method call
   * on a value that is not an object; the model states that refusal as the
   * result rather than deriving it.
   */
  function PayloadAsWritten(push: Value): (r: Result<Fields, ScheduleError>)
    requires push == Null || push.IsArray()
    ensures r.Failure?
  {
    if push == Null then Failure(PushNotSet) else Failure(PushNotAnObject)
  }

  /** `new ScheduledPushRequest`, with the wrapped push held by reference. */
  class ScheduledPushRequest {
    var schedule: Value
    var name: Value
    var push: PushRequest?

    constructor ()
      ensures schedule == Null && name == Null && push == null
    {
      schedule := Null;
      name := Null;
      push := null;
    }

    /**
     * `getPayload`: fails while no push is wrapped; otherwise `schedule`,
     * `push` (the wrapped push's payload as it is now) and `name` when set.
     * It reads this object and the wrapped push and changes neither.
     */
    function GetPayload(): (r: Result<Fields, ScheduleError>)
      reads this, push
      ensures r.Failure? <==> push == null
      ensures r.Failure? ==> r.error == PushNotSet
      ensures r.Success? ==>
        && Keys(r.value) == ScheduleKeys(name != Null)
        && DistinctKeys(r.value)
        && Lookup(r.value, "schedule") == Some(schedule)
        && Lookup(r.value, "push") == Some(Obj(push.GetPayload()))
        && Lookup(r.value, "name") == (if name != Null then Some(name) else None)
    {
      if push == null then Failure(PushNotSet)
      else
        ScheduledShape(schedule, push.GetPayload(), name);
        Success(ScheduledPayloadOf(schedule, push.GetPayload(), name))
    }

    /** `setSchedule`: the argument is declared `array`. */
    method SetSchedule(v: Value) returns (r: ScheduledPushRequest)
      requires v.IsArray()
      modifies this
      ensures r == this && schedule == v && name == old(name) && push == old(push)
    {
      schedule := v;
      r := this;
    }

    /** `setName`. */
    method SetName(v: Value) returns (r: ScheduledPushRequest)
      modifies this
      ensures r == this && name == v && schedule == old(schedule) && push == old(push)
    {
      name := v;
      r := this;
    }

    /** `setPush`, taking the push request object the payload builder needs. */
    method SetPush(p: PushRequest) returns (r: ScheduledPushRequest)
      modifies this
      ensures r == this && push == p && schedule == old(schedule) && name == old(name)
    {
      push := p;
      r := this;
    }
  }

  /**
   * The wrapped push is shared, not copied: an audience set on it after
   * `setPush` shows up in the scheduled payload.
   */
  method LaterChangeShows(schedule: Value, before: Value, after: Value) returns (payload: Result<Fields, ScheduleError>)
    requires schedule.IsArray()
    ensures payload.Success?
    ensures payload.Success? && Lookup(payload.value, "push").Some?
    ensures var inner := Lookup(payload.value, "push").value;
      inner.Obj? && Lookup(inner.fields, "audience") == Some(after)
  {
    var push := new PushRequest();
    push := push.SetAudience(before);
    var sched := new ScheduledPushRequest();
    sched := sched.SetSchedule(schedule);
    sched := sched.SetPush(push);
    push := push.SetAudience(after);
    payload := sched.GetPayload();
  }
}
