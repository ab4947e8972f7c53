/**
 * The Playdeck bridge as one long-lived object: the messages it has posted
 * to the host window, the "message" listeners it has registered on its own
 * window, and the promises those listeners resolve.
 *
 * The browser's event loop is replaced by an explicit inbox: an operation
 * that awaits a reply is given the messages the window receives from then
 * on, in delivery order, and dispatches them one at a time until its promise
 * settles. It returns the settled value (`None` while the promise is still
 * pending when the inbox runs out) and the messages it did not consume.
 */
module Bridge {
  import opened Wrappers
  import opened JsValues
  import opened Protocol

  class Playdeck {
    /** Every envelope posted to the host window, oldest first. */
    var outbox: seq<Json>
    /** The window's "message" listeners, in registration order. */
    var listeners: seq<Listener>
    /** The promises resolved so far, with the value each resolved to. */
    var settled: map<nat, Json>
    /** The identity the next promise will get. */
    var nextPromise: nat

    /**
     * Each registered listener resolves its own promise, which is still
     * pending; identities are handed out in order.
     */
    ghost predicate Valid()
      reads this
    {
      Registered(listeners, settled, nextPromise)
    }

    constructor ()
      ensures Valid()
      ensures outbox == [] && listeners == [] && settled == map[]
    {
      outbox, listeners, settled, nextPromise := [], [], map[], 0;
    }

    /** `__send`: post one envelope to the host. */
    method Send(name: string, variables: map<string, Json>)
      modifies this`outbox
      ensures outbox == old(outbox) + [Envelope(name, variables)]
    {
      outbox := outbox + [Envelope(name, variables)];
    }

    /** `__handlerMessage`: create a pending promise and register its listener. */
    method HandlerMessage(name: string) returns (p: nat)
      requires Valid()
      modifies this`listeners, this`nextPromise
      ensures Valid()
      ensures p == old(nextPromise) && nextPromise == p + 1
      ensures listeners == old(listeners) + [Listener(p, name)]
      ensures p !in settled
    {
      p := nextPromise;
      listeners := listeners + [Listener(p, name)];
      nextPromise := nextPromise + 1;
    }

    /**
     * One inbound message arrives: the window dispatches it to the listeners,
     * and the object invariant survives.
     */
    method Deliver(data: Json)
      requires Valid()
      modifies this`listeners, this`settled
      ensures Valid()
      ensures listeners == Unfired(old(listeners), data)
      ensures settled == Settle(old(settled), old(listeners), data)
    {
      DeliverPreserves(listeners, settled, data, nextPromise);
      Dispatch(data);
    }

    /**
     * The window's dispatch of one "message" event: every listener
     * registered when it arrives is invoked in registration order.
     */
    method Dispatch(data: Json)
      modifies this`listeners, this`settled
      ensures listeners == Unfired(old(listeners), data)
      ensures settled == Settle(old(settled), old(listeners), data)
    {
      DispatchFrom([], listeners, data);
      assert [] + Unfired(old(listeners), data) == Unfired(old(listeners), data);
    }

    /**
     * The rest of a dispatch, one listener at a time: `kept` are the
     * listeners already invoked that stayed registered, `pending` those still
     * to be invoked, in order.
     */
    method DispatchFrom(kept: seq<Listener>, pending: seq<Listener>, data: Json)
      requires listeners == kept + pending
      modifies this`listeners, this`settled
      ensures listeners == kept + Unfired(pending, data)
      ensures settled == Settle(old(settled), pending, data)
      decreases pending
    {
      if pending != [] {
        var kept' := Invoke(kept, pending, data);
        DispatchFrom(kept', pending[1..], data);
        UnfiredStep(kept, pending, data);
      } else {
        assert kept + [] == kept;
      }
    }

    /**
     * The body of the listener at the head of `pending` for one message: if
     * it accepts the message it removes itself from the window and resolves
     * its promise, and otherwise it returns without effect. `kept` are the
     * listeners before it that stayed, which the result extends when it
     * stays too.
     */
    method Invoke(kept: seq<Listener>, pending: seq<Listener>, data: Json) returns (kept': seq<Listener>)
      requires pending != [] && listeners == kept + pending
      modifies this`listeners, this`settled
      ensures kept' == kept + (if Fires(pending[0], data) then [] else [pending[0]])
      ensures listeners == kept' + pending[1..]
      ensures settled == Resolve(old(settled), pending[0], data)
    {
      var l := pending[0];
      var reply := Handle(l.awaited, data);
      if reply.Some? {
        listeners := kept + pending[1..];              // removeEventListener
        settled := settled[l.promise := reply.value];  // resolve
        return kept;
      }
      assert kept + pending == (kept + [l]) + pending[1..];
      return kept + [l];
    }

    /**
     * The index, in array order, of the first promise in `ps` that has
     * settled: the one `Promise.race` over `ps` settles with.
     */
    method FirstSettled(ps: seq<nat>) returns (t: Option<nat>)
      ensures t.Some? ==> t.value < |ps| && ps[t.value] in settled
      ensures t.Some? ==> forall u :: 0 <= u < t.value ==> ps[u] !in settled
      ensures t.None? ==> forall u :: 0 <= u < |ps| ==> ps[u] !in settled
    {
      var u := 0;
      while u < |ps|
        invariant 0 <= u <= |ps|
        invariant forall v :: 0 <= v < u ==> ps[v] !in settled
      {
        if ps[u] in settled {
          return Some(u);
        }
        u := u + 1;
      }
      return None;
    }

    /**
     * `await this.__handlerMessage(name)`: register a listener, then let the
     * window deliver `inbox` until the promise settles. The result is the
     * handler's value for the first message that names `name`; a message
     * for any other method, or without the namespace, is passed over. The
     * same reply settles every call already waiting for `name`, and a
     * promise settled before keeps its value.
     */
    method AwaitReply(name: string, inbox: seq<Json>) returns (r: Option<Json>, rest: seq<Json>)
      requires Valid()
      modifies this`listeners, this`settled, this`nextPromise
      ensures Valid() && nextPromise == old(nextPromise) + 1
      ensures r == Awaited([name], inbox) && rest == Remaining([name], inbox)
      ensures Window(listeners, settled)
           == DeliverAll(Window(old(listeners) + [Listener(old(nextPromise), name)], old(settled)), Consumed([name], inbox))
      ensures r.Some? ==> Listener(old(nextPromise), name) !in listeners
                          && old(nextPromise) in settled && settled[old(nextPromise)] == r.value
      ensures r.None? ==> Listener(old(nextPromise), name) in listeners && old(nextPromise) !in settled
      ensures forall l :: l in old(listeners) && l.awaited == name ==>
                if r.Some? then l !in listeners && l.promise in settled && settled[l.promise] == r.value
                else l in listeners && l.promise !in settled
      ensures forall q :: q in old(settled) ==> q in settled && settled[q] == old(settled)[q]
    {
      var p := HandlerMessage(name);
      ghost var start := Window(listeners, settled);
      ghost var next := nextPromise;
      r, rest := WaitRace([name], [p], inbox);
      AwaitSettles(start, [name], inbox, next, Listener(p, name));
      forall l | l in old(listeners) && l.awaited == name
        ensures if r.Some? then l !in listeners && l.promise in settled && settled[l.promise] == r.value
                else l in listeners && l.promise !in settled
      {
        AwaitSettles(start, [name], inbox, next, l);
      }
      forall q | q in old(settled)
        ensures q in settled && settled[q] == old(settled)[q]
      {
        DeliverAllKeeps(start, Consumed([name], inbox), next, q);
      }
    }

    /**
     * `names.map(n => this.__handlerMessage(n))`: one pending promise and one
     * listener per name, appended in array order behind the listeners
     * already registered.
     */
    method RegisterAll(names: seq<string>) returns (ps: seq<nat>)
      requires Valid()
      modifies this`listeners, this`nextPromise
      ensures Valid() && nextPromise == old(nextPromise) + |names|
      ensures listeners == old(listeners) + Registrations(old(nextPromise), names)
      ensures |ps| == |names| && forall u :: 0 <= u < |ps| ==> ps[u] == old(nextPromise) + u
      ensures forall u :: 0 <= u < |ps| ==> Listener(ps[u], names[u]) in listeners && ps[u] !in settled
    {
      ghost var first := nextPromise;
      ghost var before := listeners;
      ps := [];
      for t := 0 to |names|
        invariant Valid()
        invariant nextPromise == first + t && |ps| == t
        invariant listeners == before + Registrations(first, names[..t])
        invariant forall u :: 0 <= u < t ==> ps[u] == first + u
      {
        ghost var registered := Registrations(first, names[..t]);
        var p := HandlerMessage(names[t]);
        ps := ps + [p];
        RegistrationsSnoc(first, names, t, p);
        assert listeners == before + (registered + [Listener(p, names[t])]);
        assert listeners == before + Registrations(first, names[..t + 1]);
      }
      assert names[..|names|] == names;
      RegistrationsMembers(before, first, names, ps);
    }

    /**
     * `await Promise.race(names.map(n => this.__handlerMessage(n)))`: one
     * listener per name, registered in array order; the race settles with
     * the handler's value for the first delivered message that names any of
     * them. The winner's listener is gone and its promise holds that value;
     * the listeners that lose stay registered and pending.
     */
    method AwaitFirstOf(names: seq<string>, inbox: seq<Json>) returns (r: Option<Json>, rest: seq<Json>)
      requires Valid()
      modifies this`listeners, this`settled, this`nextPromise
      ensures Valid() && nextPromise == old(nextPromise) + |names|
      ensures r == Awaited(names, inbox) && rest == Remaining(names, inbox)
      ensures Window(listeners, settled)
           == DeliverAll(Window(old(listeners) + Registrations(old(nextPromise), names), old(settled)), Consumed(names, inbox))
      ensures forall l :: l in Registrations(old(nextPromise), names) && Winner(names, inbox) == Some(l.awaited) ==>
                r.Some? && l !in listeners && l.promise in settled && settled[l.promise] == r.value
      ensures forall l :: l in Registrations(old(nextPromise), names) && Winner(names, inbox) != Some(l.awaited) ==>
                l in listeners && l.promise !in settled
    {
      ghost var race := Registrations(nextPromise, names);
      var ps := RegisterAll(names);
      ghost var start := Window(listeners, settled);
      ghost var next := nextPromise;
      r, rest := WaitRace(names, ps, inbox);
      RaceSettles(start, names, inbox, next, race, listeners, settled);
    }

    /**
     * `Promise.race` over the promises `ps`, whose listeners wait for
     * `names`: deliver `inbox` until one of them has settled. The window
     * ends up as the deliveries of the consumed messages leave it.
     */
    method WaitRace(names: seq<string>, ps: seq<nat>, inbox: seq<Json>) returns (r: Option<Json>, rest: seq<Json>)
      requires Valid() && |ps| == |names|
      requires forall u :: 0 <= u < |ps| ==> Listener(ps[u], names[u]) in listeners && ps[u] !in settled
      modifies this`listeners, this`settled
      ensures Valid()
      ensures r == Awaited(names, inbox) && rest == Remaining(names, inbox)
      ensures Window(listeners, settled) == DeliverAll(Window(old(listeners), old(settled)), Consumed(names, inbox))
    {
      ghost var start := Window(listeners, settled);
      var i := 0;
      var winner: Option<nat> := None;
      while i < |inbox| && winner.None?
        invariant Valid()
        invariant 0 <= i <= |inbox|
        invariant Window(listeners, settled) == DeliverAll(start, inbox[..i])
        invariant winner.None? ==> forall u :: 0 <= u < |ps| ==> Listener(ps[u], names[u]) in listeners && ps[u] !in settled
        invariant winner.None? ==> FirstReply(names, inbox[..i]).None?
        invariant winner.Some? ==> Consumed(names, inbox) == inbox[..i] && Remaining(names, inbox) == inbox[i..]
        invariant winner.Some? ==> winner.value < |ps| && ps[winner.value] in settled
                                   && Awaited(names, inbox) == Some(settled[ps[winner.value]])
      {
        ScanStep(names, inbox, i);
        winner := RaceRound(names, ps, inbox[i]);
        DeliverAllPrefix(start, inbox, i);
        i := i + 1;
      }
      if winner.Some? {
        r := Some(settled[ps[winner.value]]);
      } else {
        r := None;
        assert inbox[..i] == inbox;
      }
      rest := inbox[i..];
    }

    /**
     * One round of the race: the window delivers `data`, then the race
     * looks, in array order, for a promise of `ps` that has settled.
     */
    method RaceRound(names: seq<string>, ps: seq<nat>, data: Json) returns (winner: Option<nat>)
      requires Valid() && |ps| == |names|
      requires forall u :: 0 <= u < |ps| ==> Listener(ps[u], names[u]) in listeners && ps[u] !in settled
      modifies this`listeners, this`settled
      ensures Valid()
      ensures Window(listeners, settled) == Step(Window(old(listeners), old(settled)), data)
      ensures winner.Some? <==> Answers(names, data)
      ensures winner.None? ==> forall u :: 0 <= u < |ps| ==> Listener(ps[u], names[u]) in listeners && ps[u] !in settled
      ensures winner.Some? ==> winner.value < |ps| && ps[winner.value] in settled
      ensures winner.Some? ==> Handle(names[winner.value], data) == Some(settled[ps[winner.value]])
    {
      RaceStep(listeners, settled, data, nextPromise, names, ps);
      Deliver(data);
      winner := FirstSettled(ps);
      assert forall u :: 0 <= u < |ps| ==> (ps[u] in settled <==> ReplyMethod(data) == Some(names[u]));
    }

    // -------------------------------------------------------------------
    // The operations

    /** `loading(value)`: report loader progress. */
    method Loading(value: int)
      modifies this`outbox
      ensures outbox == old(outbox) + [Envelope("loading", map["value" := Num(value)])]
    {
      Send("loading", map["value" := Num(value)]);
    }

    /**
     * `showAd()`: ask the host for an ad, then race its four outcomes. The
     * result is the `done` field of the winner's value: `true` when
     * `rewardedAd` arrives first, whatever it carries; for the other three,
     * whatever `done` their payload has (usually none, so `undefined`).
     */
    method ShowAd(inbox: seq<Json>) returns (done: Option<Json>, rest: seq<Json>)
      requires Valid()
      modifies this
      ensures Valid()
      ensures outbox == old(outbox) + [Envelope("showAd", map[])]
      ensures match FirstReply(AdOutcomes, inbox)
        case None => done == None && rest == []
        case Some(k) =>
          && rest == inbox[k + 1..]
          && (ReplyMethod(inbox[k]) == Some(RewardedAd) ==> done == Some(Bool(true)))
          && (ReplyMethod(inbox[k]) != Some(RewardedAd) ==> done == Some(Get(Payload(inbox[k]), "done")))
      ensures nextPromise == old(nextPromise) + |AdOutcomes|
      ensures Window(listeners, settled)
           == DeliverAll(Window(old(listeners) + Registrations(old(nextPromise), AdOutcomes), old(settled)),
                         Consumed(AdOutcomes, inbox))
      ensures forall l :: l in Registrations(old(nextPromise), AdOutcomes) && Winner(AdOutcomes, inbox) == Some(l.awaited) ==>
                l !in listeners && l.promise in settled && done == Some(Get(settled[l.promise], "done"))
      ensures forall l :: l in Registrations(old(nextPromise), AdOutcomes) && Winner(AdOutcomes, inbox) != Some(l.awaited) ==>
                l in listeners && l.promise !in settled
    {
      Send("showAd", map[]);
      var outcome;
      outcome, rest := AwaitFirstOf(AdOutcomes, inbox);
      if outcome.Some? {
        done := Some(Get(outcome.value, "done"));
      } else {
        done := None;
      }
    }

    /** `share()`: ask the host to open its share dialog. */
    method Share()
      modifies this`outbox
      ensures outbox == old(outbox) + [Envelope("customShare", map["value" := Obj(map[])])]
    {
      Send("customShare", map["value" := Obj(map[])]);
    }

    /** `getProfile()`: ask for the user profile; the reply's value is passed through. */
    method GetProfile(inbox: seq<Json>) returns (profile: Option<Json>, rest: seq<Json>)
      requires Valid()
      modifies this
      ensures Valid()
      ensures outbox == old(outbox) + [Envelope("getUserProfile", map[])]
      ensures match FirstReply(["getUserProfile"], inbox)
        case None => profile == None && rest == []
        case Some(k) => profile == Some(Payload(inbox[k])) && rest == inbox[k + 1..]
      ensures nextPromise == old(nextPromise) + 1
      ensures Window(listeners, settled)
           == DeliverAll(Window(old(listeners) + [Listener(old(nextPromise), "getUserProfile")], old(settled)),
                         Consumed(["getUserProfile"], inbox))
      ensures profile.Some? ==> Listener(old(nextPromise), "getUserProfile") !in listeners
                                && old(nextPromise) in settled && profile == Some(settled[old(nextPromise)])
      ensures profile.None? ==> Listener(old(nextPromise), "getUserProfile") in listeners && old(nextPromise) !in settled
      ensures forall l :: l in old(listeners) && l.awaited == "getUserProfile" ==>
                if profile.Some? then l !in listeners && l.promise in settled && profile == Some(settled[l.promise])
                else l in listeners && l.promise !in settled
    {
      Send("getUserProfile", map[]);
      profile, rest := AwaitReply("getUserProfile", inbox);
    }

    /** `sendProgress(level, maxLevel?)`: report the level reached. */
    method SendProgress(level: int, maxLevel: Option<int>)
      modifies this`outbox
      ensures outbox == old(outbox) + [Envelope("sendGameProgress", map["value" := Progress(level, maxLevel)])]
    {
      Send("sendGameProgress", map["value" := Progress(level, maxLevel)]);
    }

    /**
     * `requestPayment(description, amount, externalId)`: send the request,
     * wait for the invoice URL, open it, and only then wait for
     * `invoiceClosed`, whose value is the result. An `invoiceClosed` that
     * arrives before the URL reply is not seen; without a URL reply no link
     * is opened and the URL listener stays registered. The ghost results
     * name what the source leaves implicit: `mid` is the registry and slots
     * when the URL wait ends, and `invoice` the promise of the
     * `invoiceClosed` wait.
     */
    method RequestPayment(description: string, amount: int, externalId: string, inbox: seq<Json>)
      returns (status: Option<Json>, rest: seq<Json>, ghost mid: Window, ghost invoice: nat)
      requires Valid()
      modifies this
      ensures Valid()
      ensures var url := Awaited(["requestPayment"], inbox);
              outbox == old(outbox) + [Envelope("requestPayment", map["value" := PaymentRequest(description, amount, externalId)])]
                        + (if url.Some? then [Envelope("openTelegramLink", map["value" := url.value])] else [])
      ensures var url := Awaited(["requestPayment"], inbox);
              status == (if url.Some? then Awaited(["invoiceClosed"], Remaining(["requestPayment"], inbox)) else None)
      ensures var url := Awaited(["requestPayment"], inbox);
              rest == (if url.Some? then Remaining(["invoiceClosed"], Remaining(["requestPayment"], inbox)) else [])
      ensures nextPromise == old(nextPromise) + (if Awaited(["requestPayment"], inbox).Some? then 2 else 1)
      ensures mid == DeliverAll(Window(old(listeners) + [Listener(old(nextPromise), "requestPayment")], old(settled)),
                                Consumed(["requestPayment"], inbox))
      ensures Awaited(["requestPayment"], inbox).None? ==>
                && Window(listeners, settled) == mid
                && Listener(old(nextPromise), "requestPayment") in listeners && old(nextPromise) !in settled
      ensures Awaited(["requestPayment"], inbox).Some? ==>
                && Listener(old(nextPromise), "requestPayment") !in listeners
                && old(nextPromise) in settled && Awaited(["requestPayment"], inbox) == Some(settled[old(nextPromise)])
      ensures Awaited(["requestPayment"], inbox).Some? ==>
                && invoice == old(nextPromise) + 1
                && Window(listeners, settled)
                   == DeliverAll(Window(mid.listeners + [Listener(invoice, "invoiceClosed")], mid.settled),
                                 Consumed(["invoiceClosed"], Remaining(["requestPayment"], inbox)))
      ensures status.Some? ==> Listener(invoice, "invoiceClosed") !in listeners
                               && invoice in settled && status == Some(settled[invoice])
      ensures Awaited(["requestPayment"], inbox).Some? && status.None? ==>
                Listener(invoice, "invoiceClosed") in listeners && invoice !in settled
      ensures forall q :: q in old(settled) ==> q in settled && settled[q] == old(settled)[q]
    {
      Send("requestPayment", map["value" := PaymentRequest(description, amount, externalId)]);
      var url, afterUrl := AwaitReply("requestPayment", inbox);
      mid := Window(listeners, settled);
      invoice := nextPromise;
      if url.None? {
        return None, afterUrl, mid, invoice;
      }
      status, rest := CloseInvoice(url.value, afterUrl);
    }

    /**
     * The second half of `requestPayment`: open the invoice URL, then wait
     * for `invoiceClosed`. Every promise settled before keeps its value.
     */
    method CloseInvoice(url: Json, inbox: seq<Json>) returns (status: Option<Json>, rest: seq<Json>)
      requires Valid()
      modifies this
      ensures Valid() && nextPromise == old(nextPromise) + 1
      ensures outbox == old(outbox) + [Envelope("openTelegramLink", map["value" := url])]
      ensures status == Awaited(["invoiceClosed"], inbox) && rest == Remaining(["invoiceClosed"], inbox)
      ensures Window(listeners, settled)
           == DeliverAll(Window(old(listeners) + [Listener(old(nextPromise), "invoiceClosed")], old(settled)),
                         Consumed(["invoiceClosed"], inbox))
      ensures status.Some? ==> Listener(old(nextPromise), "invoiceClosed") !in listeners
                               && old(nextPromise) in settled && status == Some(settled[old(nextPromise)])
      ensures status.None? ==> Listener(old(nextPromise), "invoiceClosed") in listeners && old(nextPromise) !in settled
      ensures forall q :: q in old(settled) ==> q in settled && settled[q] == old(settled)[q]
    {
      OpenLink(url);
      status, rest := AwaitReply("invoiceClosed", inbox);
    }

    /**
     * `openLink(link)`: ask the host to open a Telegram link. The link is
     * typed `string` in the source, but `requestPayment` hands over the URL
     * reply's value unchecked, so any value is accepted here.
     */
    method OpenLink(link: Json)
      modifies this`outbox
      ensures outbox == old(outbox) + [Envelope("openTelegramLink", map["value" := link])]
    {
      Send("openTelegramLink", map["value" := link]);
    }

    /** `setData(key, value)`: store a string under a key on the host. */
    method SetData(key: string, value: string)
      modifies this`outbox
      ensures outbox == old(outbox) + [Envelope("setData", map["key" := Str(key), "value" := Str(value)])]
    {
      Send("setData", map["key" := Str(key), "value" := Str(value)]);
    }

    /**
     * `getData(key)`: ask for the data stored under `key`. The reply is
     * matched by method name only: the key is not checked.
     */
    method GetData(key: string, inbox: seq<Json>) returns (data: Option<Json>, rest: seq<Json>)
      requires Valid()
      modifies this
      ensures Valid()
      ensures outbox == old(outbox) + [Envelope("getData", map["key" := Str(key)])]
      ensures match FirstReply(["getData"], inbox)
        case None => data == None && rest == []
        case Some(k) => data == Some(DataOrNull(Payload(inbox[k]))) && rest == inbox[k + 1..]
      ensures nextPromise == old(nextPromise) + 1
      ensures Window(listeners, settled)
           == DeliverAll(Window(old(listeners) + [Listener(old(nextPromise), "getData")], old(settled)),
                         Consumed(["getData"], inbox))
      ensures data.Some? ==> Listener(old(nextPromise), "getData") !in listeners
                             && old(nextPromise) in settled && data == Some(DataOrNull(settled[old(nextPromise)]))
      ensures data.None? ==> Listener(old(nextPromise), "getData") in listeners && old(nextPromise) !in settled
      ensures forall l :: l in old(listeners) && l.awaited == "getData" ==>
                if data.Some? then l !in listeners && l.promise in settled && settled[l.promise] == settled[old(nextPromise)]
                else l in listeners && l.promise !in settled
    {
      Send("getData", map["key" := Str(key)]);
      var reply;
      reply, rest := AwaitReply("getData", inbox);
      if reply.Some? {
        data := Some(DataOrNull(reply.value));
      } else {
        data := None;
      }
    }
  }
}
