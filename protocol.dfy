/**
 * The pure part of the Playdeck bridge: the outbound envelope, the body of
 * the per-call message listener, the interpretation of replies, and the
 * effect of one delivered message on a registry of pending listeners.
 */
module Protocol {
  import opened Wrappers
  import opened JsValues

  /** The field that marks a message as belonging to this protocol. */
  const Namespace: string := "playdeck"

  /** The one reply whose payload is replaced by a fixed success marker. */
  const RewardedAd: string := "rewardedAd"

  /** `{done: true}`, what a `rewardedAd` reply resolves to. */
  const RewardDone: Json := Obj(map["done" := Bool(true)])

  /** The four mutually exclusive outcomes `showAd` races, in array order. */
  const AdOutcomes: seq<string> := [RewardedAd, "errAd", "skipAd", "notFoundAd"]

  // ---------------------------------------------------------------------
  // Outbound envelopes

  /**
   * `{playdeck: {method, ...variables}}`. The spread comes after `method`,
   * so a `method` key among the variables would win; no operation passes one.
   */
  function Envelope(name: string, variables: map<string, Json>): (e: Json)
    ensures e.Obj? && e.fields.Keys == {Namespace}
    ensures e.fields[Namespace].Obj?
    ensures e.fields[Namespace].fields.Keys == variables.Keys + {"method"}
    ensures forall k :: k in variables ==> e.fields[Namespace].fields[k] == variables[k]
    ensures "method" !in variables ==> e.fields[Namespace].fields["method"] == Str(name)
  {
    Obj(map[Namespace := Obj(map["method" := Str(name)] + variables)])
  }

  /** The `value` of a `sendGameProgress` envelope. */
  function Progress(level: int, maxLevel: Option<int>): (v: Json)
    ensures Get(Get(v, "progress"), "level") == Num(level)
    ensures Get(Get(v, "progress"), "isLastLevel").Bool?
    ensures Get(Get(v, "progress"), "isLastLevel").b <==> maxLevel == Some(level)
    ensures maxLevel == None ==> Get(Get(v, "progress"), "isLastLevel") == Bool(false)
  {
    Obj(map["progress" := Obj(map["level" := Num(level), "isLastLevel" := Bool(maxLevel == Some(level))])])
  }

  /** The `value` of a `requestPayment` envelope. */
  function PaymentRequest(description: string, amount: int, externalId: string): (v: Json)
    ensures v.Obj? && v.fields.Keys == {"amount", "description", "externalId"}
    ensures Get(v, "amount") == Num(amount)
    ensures Get(v, "description") == Str(description)
    ensures Get(v, "externalId") == Str(externalId)
  {
    Obj(map["amount" := Num(amount), "description" := Str(description), "externalId" := Str(externalId)])
  }

  // ---------------------------------------------------------------------
  // Inbound messages

  /**
   * The method an inbound message names: present exactly when the message
   * carries a namespaced object whose `method` field is a string.
   */
  function ReplyMethod(data: Json): Option<string> {
    match Get(data, Namespace)
    case Obj(f) => if "method" in f && f["method"].Str? then Some(f["method"].s) else None
    case _ => None
  }

  /** The message names one of `methods`. */
  predicate Answers(methods: seq<string>, data: Json) {
    ReplyMethod(data).Some? && ReplyMethod(data).value in methods
  }

  /** `pdData.value` of a namespaced message. */
  function Payload(data: Json): Json {
    Get(Get(data, Namespace), "value")
  }

  /**
   * What the listener registered for `method` does with one inbound message:
   * `None` when it returns without effect, `Some(v)` when it removes itself
   * and resolves its promise with `v`.
   */
  function Handle(name: string, data: Json): (r: Option<Json>)
    ensures !Truthy(Get(data, Namespace)) ==> r == None
    ensures r.Some? <==> ReplyMethod(data) == Some(name)
    ensures r.Some? && name == RewardedAd ==> r.value == RewardDone
    ensures r.Some? && name != RewardedAd ==> r.value == Payload(data)
  {
    var pdData := Get(data, Namespace);
    if !Truthy(pdData) then None
    else if Get(pdData, "method") == Str(name) then
      Some(if name == RewardedAd then RewardDone else Get(pdData, "value"))
    else None
  }

  /** A reply shaped like an outbound envelope reaches the listener for its method intact. */
  lemma ReplyRoundTrip(name: string, value: Json)
    ensures Handle(name, Envelope(name, map["value" := value]))
         == Some(if name == RewardedAd then RewardDone else value)
  {
  }

  /** A `rewardedAd` reply resolves to `{done: true}` whatever else it carries. */
  lemma RewardIgnoresPayload(d1: Json, d2: Json)
    requires ReplyMethod(d1) == Some(RewardedAd) && ReplyMethod(d2) == Some(RewardedAd)
    ensures Handle(RewardedAd, d1) == Handle(RewardedAd, d2) == Some(RewardDone)
  {
  }

  /** `value?.data ?? null`: the stored data of a `getData` reply, `null` when there is none. */
  function DataOrNull(value: Json): (r: Json)
    ensures r != Undefined
    ensures r == if value.Obj? && "data" in value.fields && !Nullish(value.fields["data"])
                 then value.fields["data"] else Null
  {
    Coalesce(Get(value, "data"), Null)
  }

  /**
   * The position of the first message in `inbox` that names one of
   * `methods`, if any.
   */
  function FirstReply(methods: seq<string>, inbox: seq<Json>): (r: Option<nat>)
    ensures r.None? <==> forall j :: 0 <= j < |inbox| ==> !Answers(methods, inbox[j])
    ensures r.Some? ==> r.value < |inbox| && Answers(methods, inbox[r.value])
    ensures r.Some? ==> forall j :: 0 <= j < r.value ==> !Answers(methods, inbox[j])
  {
    if inbox == [] then None
    else if Answers(methods, inbox[0]) then Some(0)
    else match FirstReply(methods, inbox[1..])
      case None => None
      case Some(k) => Some(k + 1)
  }

  /**
   * Scanning `inbox` in order: when no message before `i` answers, the
   * message at `i` is either the first reply or one more passed over.
   */
  lemma ScanStep(methods: seq<string>, inbox: seq<Json>, i: nat)
    requires i < |inbox| && FirstReply(methods, inbox[..i]).None?
    ensures Answers(methods, inbox[i]) ==>
              && Consumed(methods, inbox) == inbox[..i + 1] && Remaining(methods, inbox) == inbox[i + 1..]
              && Awaited(methods, inbox) == Handle(ReplyMethod(inbox[i]).value, inbox[i])
    ensures !Answers(methods, inbox[i]) ==> FirstReply(methods, inbox[..i + 1]).None?
  {
    assert forall j :: 0 <= j < i ==> inbox[..i][j] == inbox[j];
    assert forall j :: 0 <= j < i + 1 ==> inbox[..i + 1][j] == inbox[j];
    if Answers(methods, inbox[i]) {
      assert FirstReply(methods, inbox) == Some(i);
    }
  }

  /** The method of the first message in `inbox` that names one of `names`. */
  function Winner(names: seq<string>, inbox: seq<Json>): (w: Option<string>)
    ensures w.Some? ==> w.value in names
  {
    match FirstReply(names, inbox)
    case None => None
    case Some(k) => ReplyMethod(inbox[k])
  }

  /**
   * What awaiting the first reply to any of `names` settles with once
   * `inbox` has been delivered: the handler's value for the first message
   * that names one of them, `None` while none has arrived.
   */
  function Awaited(names: seq<string>, inbox: seq<Json>): (r: Option<Json>)
    ensures r.Some? <==> exists k :: 0 <= k < |inbox| && Answers(names, inbox[k])
    ensures r.Some? <==> Winner(names, inbox).Some?
    ensures r.Some? ==> r == Handle(Winner(names, inbox).value, inbox[FirstReply(names, inbox).value])
  {
    match FirstReply(names, inbox)
    case None => None
    case Some(k) => Handle(ReplyMethod(inbox[k]).value, inbox[k])
  }

  /**
   * The messages delivered after the one the await settled on: a suffix of
   * `inbox` that leaves out at least the settling message, and nothing at
   * all while the await is still pending.
   */
  function Remaining(names: seq<string>, inbox: seq<Json>): (r: seq<Json>)
    ensures |r| <= |inbox| && r == inbox[|inbox| - |r|..]
    ensures r == [] || |r| < |inbox|
    ensures FirstReply(names, inbox).None? ==> r == []
  {
    match FirstReply(names, inbox)
    case None => []
    case Some(k) => inbox[k + 1..]
  }

  /**
   * The messages an await takes from `inbox`: every message up to and
   * including the one it settles on, or all of them while it stays pending.
   */
  function Consumed(names: seq<string>, inbox: seq<Json>): (c: seq<Json>)
    ensures c + Remaining(names, inbox) == inbox
  {
    match FirstReply(names, inbox)
    case None => inbox
    case Some(k) => assert inbox[..k + 1] + inbox[k + 1..] == inbox; inbox[..k + 1]
  }

  /**
   * Awaiting one method settles on the first message that names it, with
   * `{done: true}` for `rewardedAd` and the message's `value` otherwise;
   * every message before it is passed over.
   */
  lemma AwaitedSingle(name: string, inbox: seq<Json>, k: nat)
    requires k < |inbox| && ReplyMethod(inbox[k]) == Some(name)
    requires forall j :: 0 <= j < k ==> ReplyMethod(inbox[j]) != Some(name)
    ensures Awaited([name], inbox) == Some(if name == RewardedAd then RewardDone else Payload(inbox[k]))
    ensures Remaining([name], inbox) == inbox[k + 1..]
  {
    assert Answers([name], inbox[k]);
    assert forall j :: 0 <= j < k ==> !Answers([name], inbox[j]);
  }

  /** Messages that name none of `names` only shift the position of the first reply. */
  lemma {:induction false} FirstReplyShift(names: seq<string>, skipped: seq<Json>, inbox: seq<Json>)
    requires forall j :: 0 <= j < |skipped| ==> !Answers(names, skipped[j])
    ensures FirstReply(names, skipped + inbox)
         == match FirstReply(names, inbox) case None => None case Some(k) => Some(|skipped| + k)
  {
    if skipped != [] {
      assert (skipped + inbox)[0] == skipped[0];
      assert (skipped + inbox)[1..] == skipped[1..] + inbox;
      assert forall j :: 0 <= j < |skipped| - 1 ==> skipped[1..][j] == skipped[j + 1];
      FirstReplyShift(names, skipped[1..], inbox);
    } else {
      assert skipped + inbox == inbox;
    }
  }

  /** Messages that name none of the awaited methods are passed over. */
  lemma AwaitedSkips(names: seq<string>, skipped: seq<Json>, inbox: seq<Json>)
    requires forall j :: 0 <= j < |skipped| ==> !Answers(names, skipped[j])
    ensures Awaited(names, skipped + inbox) == Awaited(names, inbox)
    ensures Remaining(names, skipped + inbox) == Remaining(names, inbox)
  {
    FirstReplyShift(names, skipped, inbox);
    match FirstReply(names, inbox)
    case None =>
    case Some(k) =>
      assert (skipped + inbox)[|skipped| + k] == inbox[k];
      assert (skipped + inbox)[|skipped| + k + 1..] == inbox[k + 1..];
  }

  /** Messages appended after the first reply do not move it. */
  lemma {:induction false} FirstReplyExtend(names: seq<string>, inbox: seq<Json>, later: seq<Json>)
    requires FirstReply(names, inbox).Some?
    ensures FirstReply(names, inbox + later) == FirstReply(names, inbox)
  {
    assert (inbox + later)[0] == inbox[0];
    if !Answers(names, inbox[0]) {
      assert (inbox + later)[1..] == inbox[1..] + later;
      FirstReplyExtend(names, inbox[1..], later);
    }
  }

  /**
   * Once an await has settled, later messages change nothing: it resolves
   * once, and what follows the settling message is handed on untouched.
   */
  lemma AwaitedOnce(names: seq<string>, inbox: seq<Json>, later: seq<Json>)
    requires FirstReply(names, inbox).Some?
    ensures Awaited(names, inbox + later) == Awaited(names, inbox)
    ensures Remaining(names, inbox + later) == Remaining(names, inbox) + later
  {
    FirstReplyExtend(names, inbox, later);
    var k := FirstReply(names, inbox).value;
    assert (inbox + later)[k] == inbox[k];
    assert (inbox + later)[k + 1..] == inbox[k + 1..] + later;
  }

  /**
   * The race does not depend on the order in which its methods are listed:
   * whichever reply is delivered first wins.
   */
  lemma {:induction false} RaceIgnoresOrder(names1: seq<string>, names2: seq<string>, inbox: seq<Json>)
    requires forall m :: m in names1 <==> m in names2
    ensures FirstReply(names1, inbox) == FirstReply(names2, inbox)
    ensures Awaited(names1, inbox) == Awaited(names2, inbox)
    ensures Winner(names1, inbox) == Winner(names2, inbox)
  {
    if inbox != [] {
      RaceIgnoresOrder(names1, names2, inbox[1..]);
      assert Answers(names1, inbox[0]) == Answers(names2, inbox[0]);
    }
  }

  /** `showAd` reports `true` whenever `rewardedAd` is the first ad outcome delivered. */
  lemma RewardWinsAd(inbox: seq<Json>)
    requires Winner(AdOutcomes, inbox) == Some(RewardedAd)
    ensures Awaited(AdOutcomes, inbox).Some?
    ensures Get(Awaited(AdOutcomes, inbox).value, "done") == Bool(true)
  {
  }

  /**
   * `requestPayment` starts waiting for `invoiceClosed` only once the URL
   * reply has settled: an `invoiceClosed` delivered before it is passed
   * over, and the wait for the invoice starts on the messages after the URL.
   */
  lemma EarlyInvoiceMissed(early: Json, url: Json, later: seq<Json>)
    requires ReplyMethod(early) == Some("invoiceClosed") && ReplyMethod(url) == Some("requestPayment")
    ensures Awaited(["requestPayment"], [early, url] + later) == Some(Payload(url))
    ensures Remaining(["requestPayment"], [early, url] + later) == later
  {
    var inbox := [early, url] + later;
    assert inbox[0] == early && inbox[1] == url;
    AwaitedSingle("requestPayment", inbox, 1);
    assert inbox[2..] == later;
  }

  // ---------------------------------------------------------------------
  // The listener registry

  /** A registered listener: the method it waits for and the promise it resolves. */
  datatype Listener = Listener(promise: nat, awaited: string)

  predicate Fires(l: Listener, data: Json) {
    Handle(l.awaited, data).Some?
  }

  /** Every listener resolves a promise of its own. */
  ghost predicate DistinctPromises(ls: seq<Listener>) {
    forall i, j :: 0 <= i < j < |ls| ==> ls[i].promise != ls[j].promise
  }

  /**
   * The registry invariant: each listener resolves its own promise, that
   * promise is still pending, and identities below `next` are all that has
   * been handed out.
   */
  ghost predicate Registered(ls: seq<Listener>, settled: map<nat, Json>, next: nat) {
    && DistinctPromises(ls)
    && (forall l :: l in ls ==> l.promise < next && l.promise !in settled)
    && (forall p :: p in settled ==> p < next)
  }

  function Promises(ls: seq<Listener>): set<nat> {
    set l | l in ls :: l.promise
  }

  /**
   * What the listener `l` does to the promise slots when `data` reaches it:
   * if it accepts the message its own promise gains the handler's value, and
   * no other slot changes.
   */
  function Resolve(settled: map<nat, Json>, l: Listener, data: Json): (r: map<nat, Json>)
    ensures r.Keys == settled.Keys + (if Fires(l, data) then {l.promise} else {})
    ensures Fires(l, data) ==> r[l.promise] == Handle(l.awaited, data).value
    ensures forall p :: p in settled && p != l.promise ==> r[p] == settled[p]
  {
    match Handle(l.awaited, data)
    case None => settled
    case Some(v) => settled[l.promise := v]
  }

  /**
   * The listeners still registered after `data` has been dispatched to each
   * of `ls`, in order: some of `ls`, none of which accepts the message.
   */
  function Unfired(ls: seq<Listener>, data: Json): (r: seq<Listener>)
    ensures |r| <= |ls|
    ensures forall l :: l in r ==> l in ls && !Fires(l, data)
  {
    if ls == [] then []
    else (if Fires(ls[0], data) then [] else [ls[0]]) + Unfired(ls[1..], data)
  }

  /**
   * The promise slots after `data` has been dispatched to each of `ls`, in
   * order: a slot once filled is never emptied.
   */
  function Settle(settled: map<nat, Json>, ls: seq<Listener>, data: Json): (r: map<nat, Json>)
    ensures settled.Keys <= r.Keys
    decreases ls
  {
    if ls == [] then settled
    else Settle(Resolve(settled, ls[0], data), ls[1..], data)
  }

  /** Dispatching to the first of `ls` either keeps it or drops it, ahead of the rest. */
  lemma UnfiredStep(kept: seq<Listener>, ls: seq<Listener>, data: Json)
    requires ls != []
    ensures kept + Unfired(ls, data)
         == (kept + (if Fires(ls[0], data) then [] else [ls[0]])) + Unfired(ls[1..], data)
  {
  }

  /** Exactly the listeners that do not accept the message stay registered. */
  lemma {:induction false} UnfiredMembers(ls: seq<Listener>, data: Json)
    ensures forall l :: l in Unfired(ls, data) <==> l in ls && !Fires(l, data)
  {
    if ls != [] {
      UnfiredMembers(ls[1..], data);
      assert forall l :: l in ls <==> l == ls[0] || l in ls[1..];
    }
  }

  /** Delivery resolves no promise other than those of the listeners it reached. */
  lemma {:induction false} SettleDomain(settled: map<nat, Json>, ls: seq<Listener>, data: Json)
    decreases ls
    ensures forall p :: p in Settle(settled, ls, data) ==> p in settled || p in Promises(ls)
  {
    if ls != [] {
      SettleDomain(Resolve(settled, ls[0], data), ls[1..], data);
      assert forall l :: l in ls[1..] ==> l in ls;
      assert Promises(ls[1..]) + {ls[0].promise} <= Promises(ls);
    }
  }

  /** The listeners after the first have distinct promises, none of them the first one's. */
  lemma DistinctTail(ls: seq<Listener>)
    requires DistinctPromises(ls) && ls != []
    ensures DistinctPromises(ls[1..])
    ensures forall m :: m in ls[1..] ==> m.promise != ls[0].promise
  {
    forall m | m in ls[1..]
      ensures m.promise != ls[0].promise
    {
      var j :| 0 <= j < |ls[1..]| && ls[1..][j] == m;
      assert ls[j + 1] == m;
    }
  }

  /** Dropping the listeners that fire keeps the promises distinct. */
  lemma {:induction false} UnfiredDistinct(ls: seq<Listener>, data: Json)
    requires DistinctPromises(ls)
    ensures DistinctPromises(Unfired(ls, data))
  {
    if ls != [] {
      DistinctTail(ls);
      UnfiredDistinct(ls[1..], data);
      UnfiredMembers(ls[1..], data);
      var rest := Unfired(ls[1..], data);
      if !Fires(ls[0], data) {
        var all := [ls[0]] + rest;
        assert Unfired(ls, data) == all;
        forall i, j | 0 <= i < j < |all|
          ensures all[i].promise != all[j].promise
        {
          if i == 0 {
            assert all[j] == rest[j - 1];
            assert rest[j - 1] in rest;
          } else {
            assert all[i] == rest[i - 1] && all[j] == rest[j - 1];
          }
        }
      }
    }
  }

  /** A promise no firing listener resolves keeps its slot, resolved or not. */
  lemma {:induction false} SettleLeaves(settled: map<nat, Json>, ls: seq<Listener>, data: Json, p: nat)
    decreases ls
    requires forall l :: l in ls && Fires(l, data) ==> l.promise != p
    ensures p in Settle(settled, ls, data) <==> p in settled
    ensures p in settled ==> Settle(settled, ls, data)[p] == settled[p]
  {
    if ls != [] {
      assert ls[0] in ls;
      var next := Resolve(settled, ls[0], data);
      assert (p in next <==> p in settled) && (p in settled ==> next[p] == settled[p]);
      assert forall l :: l in ls[1..] ==> l in ls;
      SettleLeaves(next, ls[1..], data, p);
    }
  }

  /** A listener that fires resolves its own promise with the handler's value. */
  lemma {:induction false} SettleResolves(settled: map<nat, Json>, ls: seq<Listener>, data: Json, l: Listener)
    decreases ls
    requires DistinctPromises(ls) && l in ls && Fires(l, data)
    ensures l.promise in Settle(settled, ls, data)
    ensures Settle(settled, ls, data)[l.promise] == Handle(l.awaited, data).value
  {
    DistinctTail(ls);
    var next := Resolve(settled, ls[0], data);
    if l == ls[0] {
      SettleLeaves(next, ls[1..], data, l.promise);
    } else {
      assert l in ls[1..];
      SettleResolves(next, ls[1..], data, l);
    }
  }

  /**
   * Traffic no listener accepts (in particular any message whose `playdeck`
   * field is absent or falsy) leaves every listener registered and every
   * promise slot as it was.
   */
  lemma IgnoredTraffic(settled: map<nat, Json>, ls: seq<Listener>, data: Json)
    requires forall l :: l in ls ==> !Fires(l, data)
    ensures Unfired(ls, data) == ls
    ensures Settle(settled, ls, data) == settled
  {
    UnfiredNone(ls, data);
    SettleNone(settled, ls, data);
  }

  /** No listener accepts the message, so every one stays registered. */
  lemma {:induction false} UnfiredNone(ls: seq<Listener>, data: Json)
    requires forall l :: l in ls ==> !Fires(l, data)
    ensures Unfired(ls, data) == ls
  {
    if ls != [] {
      assert ls[0] in ls;
      assert forall l :: l in ls[1..] ==> l in ls;
      UnfiredNone(ls[1..], data);
      assert [ls[0]] + ls[1..] == ls;
    }
  }

  /** No listener accepts the message, so no promise slot changes. */
  lemma {:induction false} SettleNone(settled: map<nat, Json>, ls: seq<Listener>, data: Json)
    requires forall l :: l in ls ==> !Fires(l, data)
    ensures Settle(settled, ls, data) == settled
    decreases ls
  {
    if ls != [] {
      assert ls[0] in ls;
      assert Resolve(settled, ls[0], data) == settled;
      assert forall l :: l in ls[1..] ==> l in ls;
      SettleNone(settled, ls[1..], data);
    }
  }

  /** A message without a truthy `playdeck` field reaches no listener. */
  lemma UnnamespacedIgnored(settled: map<nat, Json>, ls: seq<Listener>, data: Json)
    requires !Truthy(Get(data, Namespace))
    ensures Unfired(ls, data) == ls
    ensures Settle(settled, ls, data) == settled
  {
    IgnoredTraffic(settled, ls, data);
  }

  /**
   * There is no per-call identifier: one reply resolves every pending
   * listener for its method, all with the same value.
   */
  lemma SameMethodSameReply(settled: map<nat, Json>, ls: seq<Listener>, data: Json, l1: Listener, l2: Listener)
    requires DistinctPromises(ls) && l1 in ls && l2 in ls
    requires l1.awaited == l2.awaited && ReplyMethod(data) == Some(l1.awaited)
    ensures l1.promise in Settle(settled, ls, data) && l2.promise in Settle(settled, ls, data)
    ensures Settle(settled, ls, data)[l1.promise] == Settle(settled, ls, data)[l2.promise]
    ensures l1 !in Unfired(ls, data) && l2 !in Unfired(ls, data)
  {
    UnfiredMembers(ls, data);
    SettleResolves(settled, ls, data, l1);
    SettleResolves(settled, ls, data, l2);
  }

  /** Delivering a message keeps the registry invariant. */
  lemma DeliverPreserves(ls: seq<Listener>, settled: map<nat, Json>, data: Json, next: nat)
    requires Registered(ls, settled, next)
    ensures Registered(Unfired(ls, data), Settle(settled, ls, data), next)
  {
    UnfiredDistinct(ls, data);
    UnfiredMembers(ls, data);
    SettleDomain(settled, ls, data);
    forall l | l in Unfired(ls, data) ensures l.promise !in Settle(settled, ls, data) {
      ListenerOutcome(ls, settled, data, next, l);
    }
  }

  /**
   * What one delivery does to one registered listener: if it accepts the
   * message it is removed and its promise resolves to the handler's value;
   * otherwise it stays registered and its promise stays pending.
   */
  lemma ListenerOutcome(ls: seq<Listener>, settled: map<nat, Json>, data: Json, next: nat, l: Listener)
    requires Registered(ls, settled, next) && l in ls
    ensures Fires(l, data) ==> l !in Unfired(ls, data) && l.promise in Settle(settled, ls, data)
                               && Settle(settled, ls, data)[l.promise] == Handle(l.awaited, data).value
    ensures !Fires(l, data) ==> l in Unfired(ls, data) && l.promise !in Settle(settled, ls, data)
  {
    UnfiredMembers(ls, data);
    if Fires(l, data) {
      SettleResolves(settled, ls, data, l);
    } else {
      forall m | m in ls && Fires(m, data) ensures m.promise != l.promise {
        var i, j :| 0 <= i < |ls| && 0 <= j < |ls| && ls[i] == l && ls[j] == m;
        assert i != j;
      }
      SettleLeaves(settled, ls, data, l.promise);
    }
  }

  /**
   * One delivery to a race over the promises `ps`, whose listeners wait for
   * `names`: each of them either resolves with the handler's value and is
   * removed, or stays registered and pending.
   */
  lemma RaceStep(ls: seq<Listener>, settled: map<nat, Json>, data: Json, next: nat, names: seq<string>, ps: seq<nat>)
    requires Registered(ls, settled, next) && |ps| == |names|
    requires forall u :: 0 <= u < |ps| ==> Listener(ps[u], names[u]) in ls
    ensures forall u :: 0 <= u < |ps| && Fires(Listener(ps[u], names[u]), data) ==>
              ps[u] in Settle(settled, ls, data) && Settle(settled, ls, data)[ps[u]] == Handle(names[u], data).value
    ensures forall u :: 0 <= u < |ps| && !Fires(Listener(ps[u], names[u]), data) ==>
              Listener(ps[u], names[u]) in Unfired(ls, data) && ps[u] !in Settle(settled, ls, data)
  {
    forall u | 0 <= u < |ps|
      ensures Fires(Listener(ps[u], names[u]), data) ==>
                ps[u] in Settle(settled, ls, data) && Settle(settled, ls, data)[ps[u]] == Handle(names[u], data).value
      ensures !Fires(Listener(ps[u], names[u]), data) ==>
                Listener(ps[u], names[u]) in Unfired(ls, data) && ps[u] !in Settle(settled, ls, data)
    {
      ListenerOutcome(ls, settled, data, next, Listener(ps[u], names[u]));
    }
  }

  /** Resolve once: a promise that has settled keeps its value through every later delivery. */
  lemma SettledStaysSettled(ls: seq<Listener>, settled: map<nat, Json>, data: Json, next: nat, p: nat)
    requires Registered(ls, settled, next) && p in settled
    ensures p in Settle(settled, ls, data) && Settle(settled, ls, data)[p] == settled[p]
  {
    SettleLeaves(settled, ls, data, p);
  }
  // ---------------------------------------------------------------------
  // A sequence of deliveries

  /** The window's listener registry together with the promise slots. */
  datatype Window = Window(listeners: seq<Listener>, settled: map<nat, Json>)

  /** The window after one more message has been dispatched. */
  function Step(w: Window, data: Json): Window {
    Window(Unfired(w.listeners, data), Settle(w.settled, w.listeners, data))
  }

  /**
   * The window after `msgs` have been dispatched, oldest first: listeners
   * are only ever removed, and slots only ever filled.
   */
  function DeliverAll(w: Window, msgs: seq<Json>): (r: Window)
    ensures |r.listeners| <= |w.listeners|
    ensures forall l :: l in r.listeners ==> l in w.listeners
    ensures w.settled.Keys <= r.settled.Keys
    decreases |msgs|
  {
    if msgs == [] then w else DeliverAll(Step(w, msgs[0]), msgs[1..])
  }

  /** Dispatching one more message after `msgs` is one more step. */
  lemma {:induction false} DeliverAllSnoc(w: Window, msgs: seq<Json>, data: Json)
    ensures DeliverAll(w, msgs + [data]) == Step(DeliverAll(w, msgs), data)
    decreases |msgs|
  {
    if msgs == [] {
      assert (msgs + [data])[1..] == [];
    } else {
      assert (msgs + [data])[0] == msgs[0];
      assert (msgs + [data])[1..] == msgs[1..] + [data];
      DeliverAllSnoc(Step(w, msgs[0]), msgs[1..], data);
    }
  }

  /** The same, read off a prefix of one inbox. */
  lemma DeliverAllPrefix(w: Window, inbox: seq<Json>, i: nat)
    requires i < |inbox|
    ensures DeliverAll(w, inbox[..i + 1]) == Step(DeliverAll(w, inbox[..i]), inbox[i])
  {
    assert inbox[..i + 1] == inbox[..i] + [inbox[i]];
    DeliverAllSnoc(w, inbox[..i], inbox[i]);
  }

  /**
   * `names.map(n => this.__handlerMessage(n))` registers one listener per
   * name, in array order, with consecutive identities from `first` on.
   */
  function Registrations(first: nat, names: seq<string>): (ls: seq<Listener>)
    ensures |ls| == |names|
    ensures forall u :: 0 <= u < |names| ==> ls[u] == Listener(first + u, names[u])
    ensures forall l :: l in ls ==> l.awaited in names
  {
    seq(|names|, u requires 0 <= u < |names| => Listener(first + u, names[u]))
  }

  /** Registering one more name appends one more listener. */
  lemma RegistrationsSnoc(first: nat, names: seq<string>, t: nat, p: nat)
    requires t < |names| && p == first + t
    ensures Registrations(first, names[..t + 1]) == Registrations(first, names[..t]) + [Listener(p, names[t])]
  {
    var longer := Registrations(first, names[..t + 1]);
    var shorter := Registrations(first, names[..t]) + [Listener(p, names[t])];
    assert |longer| == |shorter|;
    forall u | 0 <= u < |longer| ensures longer[u] == shorter[u] {
      assert names[..t + 1][u] == names[u];
      if u < t {
        assert names[..t][u] == names[u];
      }
    }
  }

  /** Each registered listener is found behind the listeners registered before. */
  lemma RegistrationsMembers(before: seq<Listener>, first: nat, names: seq<string>, ps: seq<nat>)
    requires |ps| == |names| && forall u :: 0 <= u < |ps| ==> ps[u] == first + u
    ensures forall u :: 0 <= u < |ps| ==> Listener(ps[u], names[u]) in before + Registrations(first, names)
  {
    var all := before + Registrations(first, names);
    forall u | 0 <= u < |ps| ensures Listener(ps[u], names[u]) in all {
      assert all[|before| + u] == Listener(ps[u], names[u]);
    }
  }

  /** Resolve once, over any number of deliveries: a filled slot keeps its value. */
  lemma {:induction false} DeliverAllKeeps(w: Window, msgs: seq<Json>, next: nat, p: nat)
    requires Registered(w.listeners, w.settled, next) && p in w.settled
    ensures p in DeliverAll(w, msgs).settled && DeliverAll(w, msgs).settled[p] == w.settled[p]
    decreases |msgs|
  {
    if msgs != [] {
      SettledStaysSettled(w.listeners, w.settled, msgs[0], next, p);
      DeliverPreserves(w.listeners, w.settled, msgs[0], next);
      DeliverAllKeeps(Step(w, msgs[0]), msgs[1..], next, p);
    }
  }

  /** Dispatching `[data] + msgs` is one step followed by `msgs`. */
  lemma DeliverAllCons(w: Window, data: Json, msgs: seq<Json>)
    ensures DeliverAll(w, [data] + msgs) == DeliverAll(Step(w, data), msgs)
  {
    assert ([data] + msgs)[0] == data && ([data] + msgs)[1..] == msgs;
  }

  /** A first message that answers settles the await on the spot. */
  lemma ConsumedFirst(names: seq<string>, inbox: seq<Json>)
    requires inbox != [] && Answers(names, inbox[0])
    ensures Consumed(names, inbox) == [inbox[0]]
    ensures Winner(names, inbox) == ReplyMethod(inbox[0])
    ensures Awaited(names, inbox) == Handle(ReplyMethod(inbox[0]).value, inbox[0])
  {
    assert FirstReply(names, inbox) == Some(0);
  }

  /** A first message that does not answer is consumed and passed over. */
  lemma ConsumedSkip(names: seq<string>, inbox: seq<Json>)
    requires inbox != [] && !Answers(names, inbox[0])
    ensures Consumed(names, inbox) == [inbox[0]] + Consumed(names, inbox[1..])
    ensures Winner(names, inbox) == Winner(names, inbox[1..])
    ensures Awaited(names, inbox) == Awaited(names, inbox[1..])
  {
    match FirstReply(names, inbox[1..])
    case None =>
      assert [inbox[0]] + inbox[1..] == inbox;
    case Some(k) =>
      assert FirstReply(names, inbox) == Some(k + 1);
      assert inbox[k + 1] == inbox[1..][k];
      assert inbox[..k + 2] == [inbox[0]] + inbox[1..][..k + 1];
  }

  /**
   * What an await does to one registered listener `l` waiting for one of
   * `names`, once the messages it consumes have been dispatched: if `l`'s
   * method is the one the first reply names, `l` is removed and its promise
   * holds the await's value (so every pending call for that method shares
   * the reply); otherwise `l` stays registered and pending (the listeners
   * a race leaves behind).
   */
  lemma {:induction false} AwaitSettles(w: Window, names: seq<string>, inbox: seq<Json>, next: nat, l: Listener)
    requires Registered(w.listeners, w.settled, next) && l in w.listeners && l.awaited in names
    ensures var after := DeliverAll(w, Consumed(names, inbox));
            Winner(names, inbox) == Some(l.awaited) ==>
              l !in after.listeners && l.promise in after.settled && Awaited(names, inbox) == Some(after.settled[l.promise])
    ensures var after := DeliverAll(w, Consumed(names, inbox));
            Winner(names, inbox) != Some(l.awaited) ==>
              l in after.listeners && l.promise !in after.settled
    decreases |inbox|
  {
    if inbox == [] {
      assert Consumed(names, inbox) == [];
    } else {
      var data := inbox[0];
      ListenerOutcome(w.listeners, w.settled, data, next, l);
      if Answers(names, data) {
        ConsumedFirst(names, inbox);
        DeliverAllCons(w, data, []);
      } else {
        ConsumedSkip(names, inbox);
        DeliverAllCons(w, data, Consumed(names, inbox[1..]));
        DeliverPreserves(w.listeners, w.settled, data, next);
        AwaitSettles(Step(w, data), names, inbox[1..], next, l);
      }
    }
  }

  /**
   * A race over the listeners `race` (one per raced name), once the
   * messages it consumes have been dispatched and have left `ls` and
   * `slots`: the winner's listener is removed and its promise holds the
   * race's value, and every other listener of the race is still registered
   * and pending.
   */
  lemma RaceSettles(w: Window, names: seq<string>, inbox: seq<Json>, next: nat, race: seq<Listener>,
                    ls: seq<Listener>, slots: map<nat, Json>)
    requires Registered(w.listeners, w.settled, next)
    requires forall l :: l in race ==> l in w.listeners && l.awaited in names
    requires Window(ls, slots) == DeliverAll(w, Consumed(names, inbox))
    ensures forall l :: l in race && Winner(names, inbox) == Some(l.awaited) ==>
              && Awaited(names, inbox).Some?
              && l !in ls && l.promise in slots && slots[l.promise] == Awaited(names, inbox).value
    ensures forall l :: l in race && Winner(names, inbox) != Some(l.awaited) ==>
              l in ls && l.promise !in slots
  {
    forall l | l in race
      ensures Winner(names, inbox) == Some(l.awaited) ==>
                && Awaited(names, inbox).Some?
                && l !in ls && l.promise in slots && slots[l.promise] == Awaited(names, inbox).value
      ensures Winner(names, inbox) != Some(l.awaited) ==> l in ls && l.promise !in slots
    {
      AwaitSettles(w, names, inbox, next, l);
    }
  }
}
