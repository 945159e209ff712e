/** The server-side registry of Realtime subscriptions kept by the service in
    `functions/realtime.py`: `active_channels` maps a channel name to its subscription, in the
    order the names were first registered (a Python dict keeps that order, and `get_channels`
    and `unsubscribe_all` expose it). The Realtime SDK is not modelled: each SDK step a call
    takes (connecting, opening and subscribing the channel, sending, unsubscribing,
    disconnecting) is a parameter saying whether that step succeeds or with what message it
    fails. */
module ChannelRegistry {
  import opened Wrappers
  import opened Json
  import opened Service

  /** The outcome of one SDK step. */
  datatype Step = Succeeds | FailsWith(message: string)

  /** A callback registered with `.on(event, callback)`; `callback` identifies the callable. */
  datatype Handler = Handler(event: string, callback: nat)

  /** What `subscribe()` hands back: the channel, the RLS token of a private channel, and the
      callbacks registered on it so far. */
  datatype Subscription = Subscription(channel: string, rlsToken: Option<string>, handlers: seq<Handler>)

  /** One message given to the SDK's `send`. */
  datatype Broadcast = Broadcast(channel: string, kind: string, event: string, payload: Json)

  const INTERNAL_ERROR := 500

  function SubscribeFailure(channel: string, message: string): Error {
    HttpException(INTERNAL_ERROR, "Failed to subscribe to " + channel + ": " + message)
  }

  function PrivateSubscribeFailure(channel: string, message: string): Error {
    HttpException(INTERNAL_ERROR, "Failed to subscribe to private channel " + channel + ": " + message)
  }

  function UnsubscribeFailure(channel: string, message: string): Error {
    HttpException(INTERNAL_ERROR, "Failed to unsubscribe from " + channel + ": " + message)
  }

  function BroadcastFailure(channel: string, message: string): Error {
    HttpException(INTERNAL_ERROR, "Failed to broadcast to " + channel + ": " + message)
  }

  function NotSubscribed(channel: string): Error {
    ValueError("Channel '" + channel + "' is not subscribed")
  }

  predicate Distinct<T(==)>(s: seq<T>) {
    forall i, j | 0 <= i < j < |s| :: s[i] != s[j]
  }

  /** The key order after `d[c] = v`: a new key goes last, an existing one keeps its place. */
  function Insert(s: seq<string>, c: string): (r: seq<string>)
    ensures Distinct(s) ==> Distinct(r)
    ensures forall x :: x in r <==> x in s || x == c
    ensures c in s ==> r == s
    ensures c !in s ==> |r| == |s| + 1 && r[..|s|] == s && r[|s|] == c
  {
    if c in s then s else s + [c]
  }

  /** The key order after `del d[c]`. */
  function Remove(s: seq<string>, c: string): (r: seq<string>)
    ensures c !in r
    ensures forall x :: x in r <==> x in s && x != c
    ensures Distinct(s) ==> Distinct(r)
    ensures |r| <= |s|
  {
    if s == [] then []
    else if s[0] == c then Remove(s[1..], c)
    else
      var rest := Remove(s[1..], c);
      assert Distinct(s) ==> s[0] !in s[1..] && Distinct(s[1..]);
      assert forall j | 1 <= j < |[s[0]] + rest| :: ([s[0]] + rest)[j] == rest[j - 1];
      [s[0]] + rest
  }

  /** Removing a name that is not there changes nothing. */
  lemma {:induction false} RemoveAbsent(s: seq<string>, c: string)
    requires c !in s
    ensures Remove(s, c) == s
  {
    if s != [] {
      RemoveAbsent(s[1..], c);
    }
  }

  /** Registering a new name and removing it again gives back the old order. */
  lemma RemoveAfterInsert(s: seq<string>, c: string)
    requires c !in s
    ensures Remove(Insert(s, c), c) == s
  {
    RemoveRemovesLast(s, c);
  }

  lemma {:induction false} RemoveRemovesLast(s: seq<string>, c: string)
    requires c !in s
    ensures Remove(s + [c], c) == s
  {
    if s == [] {
      assert Remove([c], c) == Remove([], c);
    } else {
      assert (s + [c])[1..] == s[1..] + [c];
      RemoveRemovesLast(s[1..], c);
    }
  }

  /** In a distinct order, removing the first name leaves the rest. */
  lemma RemoveFirst(s: seq<string>)
    requires s != [] && Distinct(s)
    ensures Remove(s, s[0]) == s[1..]
  {
    RemoveAbsent(s[1..], s[0]);
  }

  /** The names `unsubscribe_all` leaves registered when it goes through `names` in order:
      it stops at the first one whose SDK unsubscribe fails. */
  function Remaining(names: seq<string>, steps: string -> Step): (r: seq<string>)
    ensures |r| <= |names| && r == names[|names| - |r|..]
    ensures r == [] || steps(r[0]).FailsWith?
  {
    if names == [] then []
    else if steps(names[0]).Succeeds? then Remaining(names[1..], steps)
    else names
  }

  /** Nothing is left registered exactly when every unsubscribe succeeds. */
  lemma {:induction false} RemainingEmpty(names: seq<string>, steps: string -> Step)
    ensures Remaining(names, steps) == [] <==> forall i | 0 <= i < |names| :: steps(names[i]).Succeeds?
  {
    if names != [] {
      RemainingEmpty(names[1..], steps);
      if steps(names[0]).Succeeds? {
        assert forall i | 1 <= i < |names| :: names[i] == names[1..][i - 1];
      }
    }
  }

  /** Skipping a prefix whose unsubscribes all succeed does not change what remains. */
  lemma {:induction false} RemainingAfterSucceeded(names: seq<string>, i: nat, steps: string -> Step)
    requires i <= |names|
    requires forall k | 0 <= k < i :: steps(names[k]).Succeeds?
    ensures Remaining(names, steps) == Remaining(names[i..], steps)
  {
    if i > 0 {
      assert names[1..][i - 1..] == names[i..];
      RemainingAfterSucceeded(names[1..], i - 1, steps);
    }
  }

  /** The entries of `m` whose names are in `names`. */
  function Keep(m: map<string, Subscription>, names: seq<string>): (r: map<string, Subscription>)
    ensures forall c :: c in r <==> c in m && c in names
    ensures forall c | c in r :: r[c] == m[c]
  {
    map c | c in m && c in names :: m[c]
  }

  /** Dropping the first of distinct names drops its entry. */
  lemma KeepRest(m: map<string, Subscription>, names: seq<string>)
    requires names != [] && Distinct(names)
    ensures Keep(m, names) - {names[0]} == Keep(m, names[1..])
  {
    assert names[0] !in names[1..];
    assert forall c :: c in names[1..] <==> c in names && c != names[0];
  }

  class Registry {
    /** The registered channel names, in registration order. */
    var order: seq<string>
    /** `active_channels`. */
    var subscriptions: map<string, Subscription>
    /** Whether the Realtime client is connected. */
    var connected: bool
    /** The messages handed to the SDK's `send`, oldest first. */
    var sent: seq<Broadcast>

    predicate Valid()
      reads this
    {
      && Distinct(order)
      && (forall c | c in order :: c in subscriptions)
      && (forall c | c in subscriptions :: c in order)
    }

    /** `_configure_service`: no channel registered yet. */
    constructor ()
      ensures Valid()
      ensures order == [] && subscriptions == map[] && !connected && sent == []
    {
      order := [];
      subscriptions := map[];
      connected := false;
      sent := [];
    }

    /** `get_channels`: the registered names, each once, in registration order. */
    function Channels(): (r: Json)
      reads this
      requires Valid()
      ensures r.JObj? && r.fields.Keys == {"channels"} && r.fields["channels"].JArr?
      ensures var items := r.fields["channels"].items;
        && |items| == |subscriptions.Keys|
        && (forall c :: JStr(c) in items <==> c in subscriptions)
        && Distinct(items)
        && |items| == |order| && forall i | 0 <= i < |order| :: items[i] == JStr(order[i])
    {
      ChannelCount(order, subscriptions.Keys);
      JObj(map["channels" := StrArray(order)])
    }

    /** Connects when not connected yet; a failure here is outside the `try` and propagates. */
    method Connect(connect: Step) returns (r: Result<(), Error>)
      modifies this
      ensures order == old(order) && subscriptions == old(subscriptions) && sent == old(sent)
      ensures old(connected) ==> r.Ok? && connected
      ensures !old(connected) && connect.Succeeds? ==> r.Ok? && connected
      ensures !old(connected) && connect.FailsWith? ==> r == Err(Raised(connect.message)) && !connected
    {
      if !connected {
        if connect.FailsWith? {
          return Err(Raised(connect.message));
        }
        connected := true;
      }
      return Ok(());
    }

    /** `subscribe_to_channel`: on success the channel maps to the new subscription, replacing
        any earlier one; on an SDK failure the registry is unchanged and HTTP 500 is raised. */
    method Subscribe(channel: string, event: string := "*", callback: Option<nat> := None,
                     connect: Step := Succeeds, sdk: Step := Succeeds) returns (r: Result<Subscription, Error>)
      requires Valid()
      modifies this
      ensures Valid() && sent == old(sent)
      ensures connected == (old(connected) || connect.Succeeds?)
      ensures r.Ok? <==> (old(connected) || connect.Succeeds?) && sdk.Succeeds?
      ensures !old(connected) && connect.FailsWith? ==> r == Err(Raised(connect.message))
      ensures (old(connected) || connect.Succeeds?) && sdk.FailsWith? ==> r == Err(SubscribeFailure(channel, sdk.message))
      ensures r.Ok? ==>
        && r.value == Subscription(channel, None, if callback.Some? then [Handler(event, callback.value)] else [])
        && subscriptions == old(subscriptions)[channel := r.value]
        && order == Insert(old(order), channel)
      ensures r.Err? ==> subscriptions == old(subscriptions) && order == old(order)
    {
      var connection := Connect(connect);
      if connection.Err? {
        return Err(connection.error);
      }
      if sdk.FailsWith? {
        return Err(SubscribeFailure(channel, sdk.message));
      }
      var handlers := [];
      if callback.Some? {
        handlers := [Handler(event, callback.value)];
      }
      var subscription := Subscription(channel, None, handlers);
      subscriptions := subscriptions[channel := subscription];
      order := Insert(order, channel);
      return Ok(subscription);
    }

    /** `subscribe_to_private_channel`: as `Subscribe`, with the user's token as the channel's
        RLS token and its own failure message. */
    method SubscribePrivate(channel: string, userToken: string, connect: Step := Succeeds, sdk: Step := Succeeds)
      returns (r: Result<Subscription, Error>)
      requires Valid()
      modifies this
      ensures Valid() && sent == old(sent)
      ensures connected == (old(connected) || connect.Succeeds?)
      ensures r.Ok? <==> (old(connected) || connect.Succeeds?) && sdk.Succeeds?
      ensures !old(connected) && connect.FailsWith? ==> r == Err(Raised(connect.message))
      ensures (old(connected) || connect.Succeeds?) && sdk.FailsWith? ==> r == Err(PrivateSubscribeFailure(channel, sdk.message))
      ensures r.Ok? ==>
        && r.value == Subscription(channel, Some(userToken), [])
        && subscriptions == old(subscriptions)[channel := r.value]
        && order == Insert(old(order), channel)
      ensures r.Err? ==> subscriptions == old(subscriptions) && order == old(order)
    {
      var connection := Connect(connect);
      if connection.Err? {
        return Err(connection.error);
      }
      if sdk.FailsWith? {
        return Err(PrivateSubscribeFailure(channel, sdk.message));
      }
      var subscription := Subscription(channel, Some(userToken), []);
      subscriptions := subscriptions[channel := subscription];
      order := Insert(order, channel);
      return Ok(subscription);
    }

    /** `unsubscribe_from_channel`: an unregistered channel is a no-op; a registered one is
        dropped only once the SDK unsubscribe succeeds, and stays registered when it fails. */
    method Unsubscribe(channel: string, sdk: Step) returns (r: Result<(), Error>)
      requires Valid()
      modifies this
      ensures Valid() && connected == old(connected) && sent == old(sent)
      ensures channel !in old(subscriptions) ==> r.Ok? && order == old(order) && subscriptions == old(subscriptions)
      ensures channel in old(subscriptions) && sdk.Succeeds? ==>
        && r.Ok?
        && order == Remove(old(order), channel)
        && subscriptions == old(subscriptions) - {channel}
      ensures channel in old(subscriptions) && sdk.FailsWith? ==>
        && r == Err(UnsubscribeFailure(channel, sdk.message))
        && order == old(order) && subscriptions == old(subscriptions)
    {
      if channel in subscriptions {
        if sdk.FailsWith? {
          return Err(UnsubscribeFailure(channel, sdk.message));
        }
        subscriptions := subscriptions - {channel};
        order := Remove(order, channel);
      }
      return Ok(());
    }

    /** `unsubscribe_all`: unsubscribes the registered channels one by one, over a snapshot of
        the names, and stops at the first failure, which it raises. */
    method UnsubscribeAll(steps: string -> Step) returns (r: Result<(), Error>)
      requires Valid()
      modifies this
      ensures Valid() && connected == old(connected) && sent == old(sent)
      ensures order == Remaining(old(order), steps)
      ensures subscriptions == Keep(old(subscriptions), order)
      ensures r.Ok? <==> order == []
      ensures r.Err? ==> r == Err(UnsubscribeFailure(order[0], steps(order[0]).message))
    {
      var snapshot := order;
      var i := 0;
      while i < |snapshot|
        invariant 0 <= i <= |snapshot|
        invariant Valid() && connected == old(connected) && sent == old(sent)
        invariant order == snapshot[i..]
        invariant forall k | 0 <= k < i :: steps(snapshot[k]).Succeeds?
        invariant subscriptions == Keep(old(subscriptions), order)
      {
        RemoveFirst(order);
        KeepRest(old(subscriptions), order);
        r := Unsubscribe(snapshot[i], steps(snapshot[i]));
        if r.Err? {
          RemainingAfterSucceeded(snapshot, i, steps);
          return;
        }
        i := i + 1;
      }
      RemainingAfterSucceeded(snapshot, i, steps);
      return Ok(());
    }

    /** `broadcast_message`: a registered channel gets the message, sent with the event as its
        type too; an unregistered one raises `ValueError`. Neither changes the registry. */
    method BroadcastMessage(channel: string, payload: Json, event: string := "broadcast", sdk: Step := Succeeds)
      returns (r: Result<(), Error>)
      requires Valid()
      modifies this
      ensures Valid()
      ensures order == old(order) && subscriptions == old(subscriptions) && connected == old(connected)
      ensures channel !in subscriptions ==> r == Err(NotSubscribed(channel)) && sent == old(sent)
      ensures channel in subscriptions && sdk.FailsWith? ==> r == Err(BroadcastFailure(channel, sdk.message)) && sent == old(sent)
      ensures channel in subscriptions && sdk.Succeeds? ==> r.Ok? && sent == old(sent) + [Broadcast(channel, event, event, payload)]
    {
      if channel in subscriptions {
        if sdk.FailsWith? {
          return Err(BroadcastFailure(channel, sdk.message));
        }
        sent := sent + [Broadcast(channel, event, event, payload)];
        return Ok(());
      }
      return Err(NotSubscribed(channel));
    }

    /** `add_callback`: registers one more callback on a subscribed channel; an unregistered
        channel raises `ValueError` and nothing changes. */
    method AddCallback(channel: string, event: string, callback: nat) returns (r: Result<(), Error>)
      requires Valid()
      modifies this
      ensures Valid() && order == old(order) && connected == old(connected) && sent == old(sent)
      ensures channel !in old(subscriptions) ==> r == Err(NotSubscribed(channel)) && subscriptions == old(subscriptions)
      ensures channel in old(subscriptions) ==>
        var before := old(subscriptions)[channel];
        && r.Ok?
        && subscriptions == old(subscriptions)[channel := before.(handlers := before.handlers + [Handler(event, callback)])]
    {
      if channel in subscriptions {
        var subscription := subscriptions[channel];
        subscriptions := subscriptions[channel := subscription.(handlers := subscription.handlers + [Handler(event, callback)])];
        return Ok(());
      }
      return Err(NotSubscribed(channel));
    }

    /** `close_all`: unsubscribes everything and then disconnects; every error is swallowed, so
        a failed unsubscribe also skips the disconnect. */
    method CloseAll(steps: string -> Step, disconnect: Step)
      requires Valid()
      modifies this
      ensures Valid() && sent == old(sent)
      ensures order == Remaining(old(order), steps)
      ensures subscriptions == Keep(old(subscriptions), order)
      ensures connected == (old(connected) && (order != [] || disconnect.FailsWith?))
    {
      var r := UnsubscribeAll(steps);
      if r.Ok? && connected && disconnect.Succeeds? {
        connected := false;
      }
    }
  }

  /** A distinct order holding exactly the keys has as many names as there are keys. */
  lemma {:induction false} ChannelCount(order: seq<string>, keys: set<string>)
    requires Distinct(order)
    requires forall c :: c in order <==> c in keys
    ensures |order| == |keys|
  {
    if order != [] {
      var rest := order[1..];
      assert Distinct(rest);
      assert forall c :: c in rest <==> c in keys - {order[0]};
      ChannelCount(rest, keys - {order[0]});
    }
  }
}
