/**
  What the setters of the FCM client promise, one call at a time and over any
  sequence of calls. All statements are about `Apply` and `Run`; each method
  of `Fcm.Client` is proved to leave its object in the state `Apply` gives.
*/
module FcmProperties {
  import opened Fcm

  // ---------------------------------------------------------------------
  // One call
  // ---------------------------------------------------------------------

  /** SetPriority stores "high" exactly when asked for "high", and "normal" otherwise. */
  lemma SetPriorityNormalizes<D>(s: ClientState<D>, priority: string)
    ensures var t := Apply(s, SetPriority(priority));
      && (t.message.priority == "high" <==> priority == "high")
      && (t.message.priority == "high" || t.message.priority == "normal")
      && Writes(Setter<D>.SetPriority(priority)) == {Priority}
      && t.serverKey == s.serverKey
  {
  }

  /** SetTimeToLive stores the four-week maximum, whatever its argument, and writes no other field. */
  lemma SetTimeToLiveStoresMaximum<D>(s: ClientState<D>, timeToLive: int)
    ensures var t := Apply(s, SetTimeToLive(timeToLive));
      && t.message.timeToLive == MAX_TIME_TO_LIVE
      && Writes(Setter<D>.SetTimeToLive(timeToLive)) == {TimeToLive}
  {
  }

  /** The argument of SetTimeToLive has no influence on the state it leaves. */
  lemma SetTimeToLiveIgnoresInput<D>(s: ClientState<D>, a: int, b: int)
    ensures Apply(s, SetTimeToLive(a)) == Apply(s, SetTimeToLive(b))
  {
  }

  /**
    The value SetTimeToLive stores agrees with the documented clamp exactly
    for inputs at or above the maximum; below it, the input is lost.
  */
  lemma StoredTimeToLiveIsClampOnlyAtOrAboveMaximum(timeToLive: int)
    ensures StoredTimeToLive(timeToLive) == ClampTimeToLive(timeToLive) <==> timeToLive >= MAX_TIME_TO_LIVE
  {
  }

  /** SetRegistrationIds appends: the list grows by the new ids, and the old entries keep their places. */
  lemma SetRegistrationIdsAppends<D>(s: ClientState<D>, ids: seq<string>)
    ensures var before := s.message.registrationIds;
            var after := Apply(s, SetRegistrationIds(ids)).message.registrationIds;
      && |after| == |before| + |ids|
      && after[..|before|] == before
      && after[|before|..] == ids
      && (forall i :: 0 <= i < |before| ==> after[i] == before[i])
  {
  }

  /** Calling SetRegistrationIds twice with a non-empty list adds it twice, so the call is not idempotent. */
  lemma SetRegistrationIdsNotIdempotent<D>(s: ClientState<D>, ids: seq<string>)
    requires ids != []
    ensures var once := Apply(s, SetRegistrationIds(ids));
            var twice := Apply(once, SetRegistrationIds(ids));
      && twice.message.registrationIds == s.message.registrationIds + ids + ids
      && twice != once
  {
  }

  /** SetNotification replaces the whole notification, whatever it held before, and nothing else. */
  lemma SetNotificationOverwrites<D>(s: ClientState<D>, n: NotificationPayload)
    ensures var t := Apply(s, SetNotification(n));
      && t.message.notification == n
      && t.message == s.message.(notification := n)
      && t.serverKey == s.serverKey
  {
  }

  /**
    Every setter that stores its argument unchanged (SetCollapseKey,
    SetCondition, SetContentAvailable, SetData, SetDryRun, SetMutableContent,
    SetNotification, SetRestrictedPackageName, SetTo) writes exactly one
    field, with exactly its argument, and leaves the server key alone.
  */
  lemma PlainSettersStoreArgument<D>(s: ClientState<D>, op: Setter<D>)
    requires Assignment(op).Some?
    ensures var (f, v) := Assignment(op).value;
            var t := Apply(s, op);
      && Writes(op) == {f}
      && Get(t.message, f) == v
      && t.serverKey == s.serverKey
      && (forall g :: g != f ==> Get(t.message, g) == Get(s.message, g))
  {
  }

  /** SetServerKey replaces the key and leaves the message untouched. */
  lemma SetServerKeyKeepsMessage<D>(s: ClientState<D>, key: string)
    ensures Apply(s, SetServerKey(key)) == ClientState(key, s.message)
  {
  }

  /** Every setter except SetRegistrationIds gives the same state when applied twice as when applied once. */
  lemma SettersIdempotent<D>(s: ClientState<D>, op: Setter<D>)
    requires !op.SetRegistrationIds?
    ensures Apply(Apply(s, op), op) == Apply(s, op)
  {
  }

  /** No setter writes the notification key or the deprecated delay-while-idle flag. */
  lemma NoSetterWritesNotificationKey<D>(op: Setter<D>)
    ensures NotificationKey !in Writes(op)
    ensures DelayWhileIdle !in Writes(op)
  {
  }

  /** The fourteen fields seen through `Get` determine a message. */
  lemma FieldsDetermineMessage<D>(a: HTTPMessage<D>, b: HTTPMessage<D>)
    requires forall f :: Get(a, f) == Get(b, f)
    ensures a == b
  {
    assert Get(a, To) == Get(b, To);
    assert Get(a, RegistrationIds) == Get(b, RegistrationIds);
    assert Get(a, Condition) == Get(b, Condition);
    assert Get(a, NotificationKey) == Get(b, NotificationKey);
    assert Get(a, CollapseKey) == Get(b, CollapseKey);
    assert Get(a, Priority) == Get(b, Priority);
    assert Get(a, ContentAvailable) == Get(b, ContentAvailable);
    assert Get(a, MutableContent) == Get(b, MutableContent);
    assert Get(a, DelayWhileIdle) == Get(b, DelayWhileIdle);
    assert Get(a, TimeToLive) == Get(b, TimeToLive);
    assert Get(a, RestrictedPackageName) == Get(b, RestrictedPackageName);
    assert Get(a, DryRun) == Get(b, DryRun);
    assert Get(a, Data) == Get(b, Data);
    assert Get(a, Notification) == Get(b, Notification);
  }

  // ---------------------------------------------------------------------
  // Any sequence of calls
  // ---------------------------------------------------------------------

  /** The ids passed to the SetRegistrationIds calls among `ops`, concatenated in call order. */
  function AddedRegistrationIds<D>(ops: seq<Setter<D>>): seq<string> {
    if ops == [] then []
    else (if ops[0].SetRegistrationIds? then ops[0].registrationIds else []) + AddedRegistrationIds(ops[1..])
  }

  /** True when some call among `ops` may write field `f`. */
  predicate Written<D>(ops: seq<Setter<D>>, f: Field) {
    exists i :: 0 <= i < |ops| && f in Writes(ops[i])
  }

  /** A field is written by a non-empty sequence of calls when the first call or one of the rest writes it. */
  lemma WrittenUnfold<D>(ops: seq<Setter<D>>, f: Field)
    requires ops != []
    ensures Written(ops, f) <==> f in Writes(ops[0]) || Written(ops[1..], f)
  {
  }

  /** A field that no call in `ops` writes keeps its value through the whole sequence. */
  lemma {:induction false} RunFrame<D>(s: ClientState<D>, ops: seq<Setter<D>>, f: Field)
    requires !Written(ops, f)
    ensures Get(Run(s, ops).message, f) == Get(s.message, f)
    decreases |ops|
  {
    if ops != [] {
      WrittenUnfold(ops, f);
      RunFrame(Apply(s, ops[0]), ops[1..], f);
    }
  }

  /** The server key changes only through SetServerKey: without such a call it keeps its value. */
  lemma {:induction false} RunKeepsServerKey<D>(s: ClientState<D>, ops: seq<Setter<D>>)
    requires forall i :: 0 <= i < |ops| ==> !ops[i].SetServerKey?
    ensures Run(s, ops).serverKey == s.serverKey
    decreases |ops|
  {
    if ops != [] {
      assert forall i :: 0 <= i < |ops[1..]| ==> ops[1..][i] == ops[i + 1];
      RunKeepsServerKey(Apply(s, ops[0]), ops[1..]);
    }
  }

  /** No sequence of setter calls changes the notification key. */
  lemma RunKeepsNotificationKey<D>(s: ClientState<D>, ops: seq<Setter<D>>)
    ensures Run(s, ops).message.notificationKey == s.message.notificationKey
  {
    forall i | 0 <= i < |ops| ensures NotificationKey !in Writes(ops[i]) {
      NoSetterWritesNotificationKey(ops[i]);
    }
    RunFrame(s, ops, NotificationKey);
  }

  /** Repeated SetRegistrationIds calls accumulate: the final list is the initial one followed by every added id, in call order. */
  lemma {:induction false} RunAccumulatesRegistrationIds<D>(s: ClientState<D>, ops: seq<Setter<D>>)
    ensures Run(s, ops).message.registrationIds == s.message.registrationIds + AddedRegistrationIds(ops)
    decreases |ops|
  {
    if ops != [] {
      var t := Apply(s, ops[0]);
      RunAccumulatesRegistrationIds(t, ops[1..]);
      var head := if ops[0].SetRegistrationIds? then ops[0].registrationIds else [];
      assert t.message.registrationIds == s.message.registrationIds + head;
    }
  }

  /** After any sequence of calls the priority is the initial one, "high" or "normal"; after any SetPriority call it is "high" or "normal". */
  lemma {:induction false} RunPriorityNormalized<D>(s: ClientState<D>, ops: seq<Setter<D>>)
    ensures var p := Run(s, ops).message.priority;
      p == s.message.priority || p == "high" || p == "normal"
    ensures Written(ops, Priority) ==>
      Run(s, ops).message.priority == "high" || Run(s, ops).message.priority == "normal"
    decreases |ops|
  {
    if ops != [] {
      var t := Apply(s, ops[0]);
      RunPriorityNormalized(t, ops[1..]);
      WrittenUnfold(ops, Priority);
      if !Written(ops[1..], Priority) {
        RunFrame(t, ops[1..], Priority);
      }
    }
  }

  /** After any sequence of calls the time to live is the initial one or the maximum; after any SetTimeToLive call it is the maximum. */
  lemma {:induction false} RunTimeToLive<D>(s: ClientState<D>, ops: seq<Setter<D>>)
    ensures var ttl := Run(s, ops).message.timeToLive;
      ttl == s.message.timeToLive || ttl == MAX_TIME_TO_LIVE
    ensures Written(ops, TimeToLive) ==> Run(s, ops).message.timeToLive == MAX_TIME_TO_LIVE
    decreases |ops|
  {
    if ops != [] {
      var t := Apply(s, ops[0]);
      RunTimeToLive(t, ops[1..]);
      WrittenUnfold(ops, TimeToLive);
      if !Written(ops[1..], TimeToLive) {
        RunFrame(t, ops[1..], TimeToLive);
      }
    }
  }

  /**
    Starting from the zero client, whatever setters are called: the time to
    live stays between 0 and the maximum, the priority is "", "high" or
    "normal", and the notification key stays empty.
  */
  lemma ZeroClientBounds<D>(ops: seq<Setter<D>>)
    ensures var t := Run(ClientState("", ZeroMessage<D>()), ops);
      && 0 <= t.message.timeToLive <= MAX_TIME_TO_LIVE
      && (t.message.priority == "" || t.message.priority == "high" || t.message.priority == "normal")
      && t.message.notificationKey == ""
  {
    var s := ClientState("", ZeroMessage<D>());
    RunTimeToLive(s, ops);
    RunPriorityNormalized(s, ops);
    RunKeepsNotificationKey(s, ops);
  }

  /**
    No setter checks that only one target is chosen: after SetTo,
    SetRegistrationIds and SetCondition on any client, all three hold what was
    given, and the notification key keeps its value, so all four targets can be
    non-empty at once.
  */
  lemma TargetsNotExclusive<D>(s: ClientState<D>, to: string, ids: seq<string>, condition: string)
    ensures var t := Run(s, [SetTo(to), SetRegistrationIds(ids), SetCondition(condition)]);
      && t.message.to == to
      && t.message.registrationIds == s.message.registrationIds + ids
      && t.message.condition == condition
      && t.message.notificationKey == s.message.notificationKey
    ensures var t := Run(s, [SetTo(to), SetRegistrationIds(ids), SetCondition(condition)]);
      (to != "" && ids != [] && condition != "" && s.message.notificationKey != "") ==>
        t.message.to != "" && t.message.registrationIds != []
        && t.message.condition != "" && t.message.notificationKey != ""
  {
    var ops := [SetTo(to), SetRegistrationIds(ids), SetCondition(condition)];
    var s1 := Apply(s, ops[0]);
    var s2 := Apply(s1, ops[1]);
    var s3 := Apply(s2, ops[2]);
    assert ops[1..][1..][1..] == [];
    assert Run(s, ops) == Run(s1, ops[1..]) == Run(s2, ops[1..][1..]) == Run(s3, ops[1..][1..][1..]) == s3;
  }

  /** Setting ["a"] and then ["b", "c"] on an empty list yields ["a", "b", "c"]. */
  lemma RegistrationIdsExample<D>(s: ClientState<D>)
    requires s.message.registrationIds == []
    ensures Run(s, [SetRegistrationIds(["a"]), SetRegistrationIds(["b", "c"])]).message.registrationIds
            == ["a", "b", "c"]
  {
  }

  /**
    A caller of the class: starting from an empty message, two SetRegistrationIds calls
    accumulate, an invalid priority is normalised, and a small time to live
    is replaced by the maximum.
  */
  method ClientExample() returns (ids: seq<string>, priority: string, timeToLive: int)
    ensures ids == ["a", "b", "c"]
    ensures priority == "normal"
    ensures timeToLive == MAX_TIME_TO_LIVE
  {
    var c := new Client<int>("key", ZeroMessage());
    c.SetRegistrationIds(["a"]);
    c.SetRegistrationIds(["b", "c"]);
    c.SetPriority("HIGH");
    c.SetTimeToLive(60);
    ids, priority, timeToLive := c.message.registrationIds, c.message.priority, c.message.timeToLive;
  }
}
