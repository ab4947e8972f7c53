# Playdeck bridge, modelled in Dafny

`Playdeck` is the game-side half of a `postMessage` bridge between a web game
running in an iframe and the Playdeck host page around it. Every request is
an envelope `{playdeck: {method, ...variables}}` posted to the parent window.
Every reply is a "message" event on the game's own window whose
`data.playdeck.method` names what it answers. There are no per-call
identifiers: a reply is matched to a waiting call by method name alone.

The model has three modules:

- `Wrappers` (`json.dfy`): the `Option` type, for a lookup or a wait that
  may not have finished.
- `JsValues` (`json.dfy`): the structured-clone values that cross the
  channel (`Json`), together with the JavaScript semantics the bridge uses:
  - truthiness (`!pdData`);
  - optional-chaining property reads (`v?.key`);
  - nullish coalescing (`??`).
- `Protocol` (`protocol.dfy`): the pure part of the bridge:
  - envelope construction;
  - the body of the per-call listener (`Handle`);
  - the interpretation of replies (`{done: true}` for `rewardedAd`, `?.data ?? null`);
  - the effect of one delivered message on the registry of pending listeners (`Unfired`, `Settle`);
  - the effect of a sequence of delivered messages on the registry (`DeliverAll`);
  - what an await settles with once a sequence of messages has been delivered (`FirstReply`, `Awaited`, `Remaining`, `Winner`), and which messages it consumes (`Consumed`).

  Its lemmas state the protocol's properties: filtering, resolve-once,
  self-removal, first-reply-wins, the reward normalisation, and the fact
  that one reply resolves every pending call for its method.
- `Bridge` (`bridge.dfy`): the `Playdeck` class as one long-lived object. It
  holds four fields:
  - the outbound log (`outbox`);
  - the window's listener registry (`listeners`);
  - the promise slots (`settled`);
  - a promise counter.

  There is one method per public operation. Each states the envelopes it
  posts, in order, and the value it returns, in terms of the `Protocol`
  functions.

The browser's event loop is replaced by an explicit inbox. An operation that
awaits a reply is handed the messages the window receives from then on, in
delivery order. It dispatches them one at a time until its promise settles,
and returns two things:

- the settled value, or `None` when the inbox runs out first, which is the
  source's unbounded wait;
- the messages it did not consume.

## Model

| member | source | states |
|---|---|---|
| JsValues.Truthy | Playdeck.ts:95 | every object and array is truthy, even an empty one; `false`, `0` and `""` are falsy |
| JsValues.Nullish | Playdeck.ts:86 | a nullish value is falsy, and reading any property of it through `?.` gives `undefined` |
| JsValues.Get | Playdeck.ts:94 | `v?.key` is the property `key` when `v` is an object that has it, and `undefined` in every other case |
| JsValues.Coalesce | Playdeck.ts:86 | `v ?? fallback` is `v` exactly when `v` is not nullish and `fallback` otherwise, so a non-nullish fallback makes the result non-nullish |
| Protocol.Envelope | Playdeck.ts:113-116 | the posted value has the single key `playdeck`. Its inner object's keys are the variables plus `method`. Each variable is carried unchanged, and `method` is the operation's name whenever no variable overrides it |
| Protocol.Progress | Playdeck.ts:40-47 | `progress.level` is the level. `progress.isLastLevel` is a boolean that is true exactly when `maxLevel` is given and equals the level, so it is false when `maxLevel` is omitted |
| Protocol.PaymentRequest | Playdeck.ts:57-63 | the payment value has exactly the keys `amount`, `description` and `externalId`, carrying the three arguments |
| Protocol.Handle | Playdeck.ts:93-106 | a message whose `playdeck` field is absent or falsy is ignored. The listener for `method` accepts a message exactly when the message names `method`, checked against an independent structural definition (`ReplyMethod`). It then yields `{done: true}` for `rewardedAd` and `pdData.value` otherwise |
| Protocol.ReplyRoundTrip | Playdeck.ts:97-105 | a reply shaped like an outbound envelope `{playdeck: {method: m, value: v}}` reaches the listener for `m` with `v` (or `{done: true}` for `rewardedAd`) |
| Protocol.RewardIgnoresPayload | Playdeck.ts:101-102 | any two `rewardedAd` replies resolve to the same `{done: true}`, whatever they carry |
| Protocol.DataOrNull | Playdeck.ts:86 | `value?.data ?? null` is the reply's `data` field when the value is an object with a non-nullish `data`, and `null` otherwise; never `undefined` |
| Protocol.FirstReply | Playdeck.ts:93-99 | the position of the first delivered message naming one of the awaited methods: none when no message does, otherwise that message answers and every earlier one does not |
| Protocol.Winner | Playdeck.ts:20 | the method that wins a race is one of the raced methods |
| Protocol.Awaited | Playdeck.ts:91-110 | an await settles exactly when some delivered message names an awaited method, and exactly when there is a winner. Its value is the winner's handler value for the first such message |
| Protocol.Remaining | Playdeck.ts:91-110 | what is left after an await is a suffix of the inbox that excludes at least the settling message. It is empty while the await stays pending |
| Protocol.Consumed | Playdeck.ts:91-110 | the messages an await takes, followed by those it leaves, are the inbox |
| Protocol.ScanStep | Playdeck.ts:93-99 | scanning the inbox in order with no reply so far, the next message either is the first reply, fixing what the await consumes, leaves and settles with, or is passed over |
| Protocol.AwaitedSingle | Playdeck.ts:97-105 | awaiting one method settles on the first message naming it, with `{done: true}` for `rewardedAd` and that message's `value` otherwise. The messages after it are left for later |
| Protocol.AwaitedSkips | Playdeck.ts:94-97 | messages that name none of the awaited methods, with or without the namespace, change neither the settled value nor what is left over |
| Protocol.AwaitedOnce | Playdeck.ts:99 | once an await has settled, later messages change neither its value nor its settling message. They are handed on untouched |
| Protocol.RaceIgnoresOrder | Playdeck.ts:13-20 | the race's outcome depends only on which methods are raced, not on their order: the first delivered reply wins |
| Protocol.RewardWinsAd | Playdeck.ts:13-20 | when `rewardedAd` is the first ad outcome delivered, the race value's `done` is `true` |
| Protocol.EarlyInvoiceMissed | Playdeck.ts:65-68 | an `invoiceClosed` that arrives before the `requestPayment` URL reply is passed over. The URL reply settles the first wait with its value, and the wait for the invoice starts on the messages after it |
| Protocol.Resolve | Playdeck.ts:99-105 | one listener's effect on the slots: if it fires, its promise's slot is filled with the handler's value; every other slot, filled or not, is unchanged |
| Protocol.Unfired | Playdeck.ts:93-99 | the listeners left after a delivery are among those before it and none of them accepted the message |
| Protocol.Settle | Playdeck.ts:93-105 | a delivery never empties a filled slot |
| Protocol.UnfiredMembers | Playdeck.ts:97-99 | after a delivery, the registered listeners are exactly those that did not accept the message |
| Protocol.SettleDomain | Playdeck.ts:99-105 | a delivery resolves no promise except those of the listeners it reached |
| Protocol.UnfiredDistinct | Playdeck.ts:109 | removing the listeners that fired keeps every remaining listener tied to a promise of its own |
| Protocol.SettleLeaves | Playdeck.ts:93-97 | a promise whose listener did not fire keeps its slot, pending or resolved |
| Protocol.SettleResolves | Playdeck.ts:99-105 | a listener that fires resolves its own promise with the handler's value |
| Protocol.IgnoredTraffic | Playdeck.ts:93-97 | a message that no listener accepts leaves the registry and every promise slot as they were |
| Protocol.UnnamespacedIgnored | Playdeck.ts:94-95 | a message without a truthy `playdeck` field leaves the registry and every promise slot exactly as they were |
| Protocol.SameMethodSameReply | Playdeck.ts:97-105 | with no per-call identifier, one reply resolves every pending listener for its method, all with the same value, and removes them all |
| Protocol.DeliverPreserves | Playdeck.ts:99-109 | a delivery keeps the registry invariant: distinct promises, every registered listener's promise pending, and identities below the counter |
| Protocol.ListenerOutcome | Playdeck.ts:97-105 | for one registered listener, a delivery either removes it and resolves its promise to the handler's value, or leaves it registered with its promise pending |
| Protocol.SettledStaysSettled | Playdeck.ts:99 | resolve once: a settled promise keeps its value through every later delivery |
| Protocol.RaceStep | Playdeck.ts:13-20 | in a race, one delivery either resolves each raced promise with its handler's value or leaves it registered and pending |
| Protocol.DeliverAll | Playdeck.ts:93-109 | over any sequence of deliveries, listeners are only ever removed (every one left was there before, and there are no more of them) and slots only ever filled |
| Protocol.DeliverAllSnoc | Playdeck.ts:93-109 | delivering one more message after a sequence is one more step of the window |
| Protocol.DeliverAllKeeps | Playdeck.ts:99 | resolve once, over any number of deliveries: a filled slot keeps its value |
| Protocol.Registrations | Playdeck.ts:13-18 | the listeners of a race, one per name in array order, with consecutive identities |
| Protocol.AwaitSettles | Playdeck.ts:91-110 | for a registered listener waiting for one of the awaited methods, the messages an await consumes either remove it and fill its slot with the await's value (its method is the winner's) or leave it registered and pending |
| Protocol.RaceSettles | Playdeck.ts:13-20 | after a race, the winner's listener is removed and its slot holds the race's value, and every other listener of the race is still registered and pending |
| Bridge.Playdeck.Send | Playdeck.ts:113-116 | `__send` appends exactly one envelope to the outbound log |
| Bridge.Playdeck.HandlerMessage | Playdeck.ts:91-110 | `__handlerMessage` creates a fresh pending promise and appends its listener to the registry, keeping the invariant |
| Bridge.Playdeck.Deliver | Playdeck.ts:93-109 | one delivered message leaves the registry as `Unfired` and the slots as `Settle` of the previous state, and keeps the invariant |
| Bridge.Playdeck.Dispatch | Playdeck.ts:93-107 | the window invokes every registered listener in registration order. The result is `Unfired` and `Settle` of the registry it started from |
| Bridge.Playdeck.DispatchFrom | Playdeck.ts:93-107 | the listeners still to be invoked end up as their `Unfired` part behind those already kept, and their effects on the slots are applied in order |
| Bridge.Playdeck.Invoke | Playdeck.ts:97-105 | one listener's body: if it accepts the message it removes itself and resolves its promise; otherwise nothing changes |
| Bridge.Playdeck.FirstSettled | Playdeck.ts:20 | `Promise.race` observes the first settled promise in array order: if it names one, that one is settled and every earlier one is pending; if none, all are pending |
| Bridge.Playdeck.AwaitReply | Playdeck.ts:91-110 | `await __handlerMessage(name)` takes one fresh promise, settles with `Awaited([name], inbox)` and consumes the inbox up to the settling message; the registry and slots are those `DeliverAll` gives over the consumed messages. When it settles, its listener is gone and its slot holds the value; while pending, its listener stays registered. Every earlier call waiting for `name` settles with the same value or stays pending with it, and every filled slot keeps its value |
| Bridge.Playdeck.RegisterAll | Playdeck.ts:13-18 | appends exactly `Registrations` of the names to the registry: one fresh pending promise per name, in array order, with consecutive identities |
| Bridge.Playdeck.AwaitFirstOf | Playdeck.ts:13-20 | `Promise.race` over one listener per name settles with `Awaited(names, inbox)`, and the registry and slots are `DeliverAll` over the consumed messages. The winner's listener is removed and its slot holds the value; every other listener of the race stays registered and pending, which is the race's listener leak |
| Bridge.Playdeck.WaitRace | Playdeck.ts:20 | delivering the inbox until a raced promise settles yields the first reply's handler value and what is left, and leaves the registry and slots as `DeliverAll` over the consumed messages |
| Bridge.Playdeck.RaceRound | Playdeck.ts:20 | one delivery is one `Step` of the registry and slots. It settles a raced promise exactly when the message names one of the raced methods; the settled promise holds the handler's value, and otherwise every raced listener stays registered and pending |
| Bridge.Playdeck.Loading | Playdeck.ts:4-6 | posts one `loading` envelope carrying the value |
| Bridge.Playdeck.ShowAd | Playdeck.ts:8-21 | posts one `showAd` envelope, then races the four ad outcomes. The result is `true` when `rewardedAd` is delivered first, whatever it carries; otherwise it is the winning payload's `done`. With no outcome delivered it stays pending. The winner's listener is removed and the result is its slot's `done`; the three losing listeners stay registered and pending |
| Bridge.Playdeck.Share | Playdeck.ts:23-27 | posts one `customShare` envelope with an empty object as value |
| Bridge.Playdeck.GetProfile | Playdeck.ts:29-35 | posts one `getUserProfile` envelope and returns the first `getUserProfile` reply's value verbatim. Its listener is removed with the value in its slot, or stays registered while pending; an earlier pending `getProfile` settles with the same value |
| Bridge.Playdeck.SendProgress | Playdeck.ts:37-48 | posts one `sendGameProgress` envelope whose value is `Progress(level, maxLevel)` |
| Bridge.Playdeck.RequestPayment | Playdeck.ts:50-69 | posts the payment request and waits for the URL reply. Only if it arrives does it post `openTelegramLink` with the URL, and only after that does it wait for `invoiceClosed` among the later messages, whose value it returns. Without a URL reply, nothing more is posted, the call stays pending and its listener stays registered. With one, the URL listener is removed and its slot holds the URL, and the invoice wait takes the next promise: its listener is removed with the status in its slot, or stays registered while pending. The registry and slots are `DeliverAll` over the URL wait's messages, then, with the invoice listener added, over the invoice wait's; every filled slot keeps its value |
| Bridge.Playdeck.CloseInvoice | Playdeck.ts:66-68 | posts `openTelegramLink` with the URL, then waits for `invoiceClosed`. The registry and slots are `DeliverAll` over the messages consumed; its listener is removed with the status in its slot, or stays registered while pending, and every filled slot keeps its value |
| Bridge.Playdeck.OpenLink | Playdeck.ts:71-73 | posts one `openTelegramLink` envelope carrying the link |
| Bridge.Playdeck.SetData | Playdeck.ts:75-79 | posts one `setData` envelope carrying the key and value |
| Bridge.Playdeck.GetData | Playdeck.ts:81-89 | posts one `getData` envelope carrying the key, and returns `?.data ?? null` of the first `getData` reply's value. The key of the reply is not checked: an earlier pending `getData` call, whatever its key, is resolved by the same reply with the same value |

Two behaviours of the code worth stating:

- `getData`: pending `getData` calls are matched by method name only. One
  reply resolves every one of them, with the same value, and not just the
  oldest (`Protocol.SameMethodSameReply`).
- `showAd`: the result is `true` when `rewardedAd` wins. For the other three
  outcomes it is whatever `done` field the host's payload carries, which is
  `undefined` when the payload has none; the code never produces `false`
  itself.

## Left out

- `window.parent.postMessage` and its `"*"` target origin are modelled only
  as the append to `outbox`. Structured-clone failures (`DataCloneError`) are
  not modelled.
- `addEventListener` and `removeEventListener` are modelled as the
  `listeners` sequence. Listener identity is the pair of promise identity
  and awaited method.
- `console.log` calls (lines 98 and 114) are diagnostics with no effect on
  the protocol.
- Promise and event-loop scheduling are replaced by the inbox, delivered one
  message at a time. Microtask ordering between a resolution and the code
  after an `await` is not modelled.
- In a race, the model picks the first settled promise in array order. When
  several promises settle in one dispatch, the source's `Promise.race` takes
  the one that settled first. The two agree for `showAd`, whose four methods
  are distinct, so one message settles at most one of them.
- `Bridge.Playdeck.Dispatch` walks the registry by recursion over the
  listeners still to be invoked, not by a `while` loop. The order and the
  effect of each listener are the same as the browser's dispatch loop.
- Numbers (`amount`, the `loading` value, `level`) are opaque pass-through
  data, modelled as `int`. No floating-point behaviour is modelled.
- Property reads follow own properties of plain objects only. Reads of
  inherited or built-in properties (for example `length` on strings and
  arrays) give `undefined`.
- TypeScript type annotations and casts (`as string`, `as any`) have no
  runtime effect and are not modelled. `OpenLink` accepts any value because
  `requestPayment` passes the URL reply through unchecked.
- `static parent = window.parent.window` (line 2) is the host window
  reference. It is represented by `outbox` alone.
- The `trex-demo` declaration files are type declarations for a
  host-injected API with no implementation, so they are not part of this
  model.
- No timeouts or cancellation exist in the source, and none are modelled. A
  call whose reply never arrives stays pending (`None`).
- ShowAd, GetProfile, GetData, RequestPayment: each runs to completion over
  its own inbox, so calls that overlap in time (a second call starting while
  the first is still waiting) are expressible only through
  `Bridge.Playdeck.HandlerMessage` and `Bridge.Playdeck.Deliver`, and
  through `AwaitReply`'s clause on earlier listeners for the same method.
