/**
 * The decisions of the sync modules, as functions of the values they read:
 * which module an environment gets, which inbound messages are accepted and
 * what they do, what `push` sends, what `pull` sends and whether it replaces
 * the state, and what the background relay does with a message.
 */
module SyncProtocol {
  import opened Types
  import opened Objects
  import opened Json
  import opened Messages

  const SYNC := "sync"
  const PUSH := "push"
  const PULL := "pull"
  const PUSH_STATE_OFFSCREEN := "pushStateOffscreen"
  const PULL_STATE_OFFSCREEN := "pullStateOffscreen"

  /** The tab id that stands for "any tab". */
  const WILDCARD: int := -1

  /** How long the offscreen `pull` waits for the background's answer. */
  const PULL_TIMEOUT_MS: nat := 5000

  /** The sync-module classes: `ContentSyncModule`, `ExtensionSyncModule`, `OffscreenSyncModule`. */
  datatype Variant = ContentSync | ExtensionSync | OffscreenSync

  /** `#createSyncModule`: the module class each environment gets. */
  function VariantFor(env: Environment): (v: Variant)
    ensures (v == ExtensionSync) <==> (env.Background? || env.Popup?)
    ensures (v == ContentSync) <==> (env.Content? || env.Offscreen?)
    ensures v != OffscreenSync
  {
    if env == Background || env == Popup then ExtensionSync else ContentSync
  }

  /** Whether the module constructor registers the offscreen relay handler. */
  predicate RegistersRelay(variant: Variant, env: Environment) {
    variant == ExtensionSync && env == Background
  }

  // ---------------------------------------------------------------- inbound

  /** An object whose `type` is `"sync"`. */
  predicate IsSyncMessage(m: RuntimeMessage) {
    m.Message? && m.msg.kind == SYNC
  }

  /** The tab a message speaks for: its `tabId`, or the sending tab's id when that is -1. */
  function SenderScope(msg: SyncMessage, sender: Sender): Option<int> {
    if msg.tabId == WILDCARD then sender.tab else Some(msg.tabId)
  }

  /** `isCurrentTab`: whether a context scoped to `localTab` accepts the message. */
  function Accepts(localTab: int, msg: SyncMessage, sender: Sender): (r: bool)
    ensures r <==>
      || localTab == WILDCARD
      || (msg.tabId != WILDCARD && msg.tabId == localTab)
      || (msg.tabId == WILDCARD && sender.tab == Some(localTab))
  {
    Some(localTab) == SenderScope(msg, sender) || localTab == WILDCARD
  }

  /** What a handler does to the state: nothing, or a `replace` with a source. */
  datatype Replacement = Keep | ReplaceWith(snapshot: Object, source: ChangeSource)

  function ApplyReplacement(s: Object, r: Replacement): Object {
    if r.ReplaceWith? then r.snapshot else s
  }

  /** The `change` events a replacement emits (`mark` sends made before it). */
  function ReplacementEvents(r: Replacement, mark: nat): seq<Event> {
    if r.ReplaceWith? then [Change("*", ObjectArg(r.snapshot), mark)] else []
  }

  datatype InboundResult = InboundResult(replacement: Replacement, reply: Option<Object>)

  /**
   * `configUpdateListener`: a sync message that the scope test accepts
   * replaces the state with its data when it is a push, and is answered with
   * the current state when it is a pull. Everything else has no effect.
   */
  function Inbound(localTab: int, raw: Object, m: RuntimeMessage, sender: Sender): (r: InboundResult)
    ensures !IsSyncMessage(m) ==> r == InboundResult(Keep, None)
    ensures IsSyncMessage(m) && !Accepts(localTab, m.msg, sender) ==> r == InboundResult(Keep, None)
    ensures r.replacement.ReplaceWith? <==>
      IsSyncMessage(m) && Accepts(localTab, m.msg, sender) && m.msg.action == PUSH && m.msg.data.Some?
    ensures r.replacement.ReplaceWith? ==>
      r.replacement == ReplaceWith(m.msg.data.value, FromSync) && r.reply.None?
    ensures r.reply.Some? <==>
      IsSyncMessage(m) && Accepts(localTab, m.msg, sender) && m.msg.action == PULL
    ensures r.reply.Some? ==> r.reply.value == raw && r.replacement == Keep
  {
    if !IsSyncMessage(m) || !Accepts(localTab, m.msg, sender) then InboundResult(Keep, None)
    else if m.msg.action == PUSH then
      InboundResult(if m.msg.data.Some? then ReplaceWith(m.msg.data.value, FromSync) else Keep, None)
    else if m.msg.action == PULL then InboundResult(Keep, Some(raw))
    else InboundResult(Keep, None)
  }

  // ------------------------------------------------------------------- push

  /**
   * The message `push` builds: a sync push carrying the whole current state
   * under `data` and nothing under `payload`.
   */
  function PushMessage(raw: Object, tabId: int): (m: SyncMessage)
    ensures m.kind == SYNC && m.action == PUSH && m.tabId == tabId
    ensures m.data == Some(raw) && m.payload.None?
  {
    SyncMessage(SYNC, PUSH, Some(raw), None, tabId)
  }

  /** The offscreen module's message to the background: it forwards the push message's `payload`. */
  function RelayPushMessage(tabId: int, push: SyncMessage): SyncMessage {
    SyncMessage(SYNC, PUSH_STATE_OFFSCREEN, None, push.payload, tabId)
  }

  /** The extra sends of each module's `onPush` hook. */
  function OnPushSends(variant: Variant, tabId: int, push: SyncMessage): (r: seq<Outgoing>)
    ensures r == [] <==> variant == ContentSync
    ensures variant == ExtensionSync ==> r == [TabSend(tabId, push)]
    ensures variant == OffscreenSync ==>
      && |r| == 1 && r[0].RuntimeSend?
      && r[0].msg.action == PUSH_STATE_OFFSCREEN && r[0].msg.tabId == tabId
      && r[0].msg.payload == push.payload && r[0].msg.data.None?
  {
    match variant
    case ContentSync => []
    case ExtensionSync => [TabSend(tabId, push)]
    case OffscreenSync => [RuntimeSend(RelayPushMessage(tabId, push))]
  }

  /**
   * Everything `push` sends: nothing before setup is done; otherwise the
   * `onPush` hook's sends, then the runtime broadcast of the push message.
   */
  function PushSends(variant: Variant, setupDone: bool, tabId: int, raw: Object): (r: seq<Outgoing>)
    ensures !setupDone <==> r == []
    ensures setupDone ==>
      && |r| == (if variant == ContentSync then 1 else 2)
      && r[|r| - 1] == RuntimeSend(PushMessage(raw, tabId))
    ensures setupDone && variant == ExtensionSync ==> r[0] == TabSend(tabId, r[1].msg)
    ensures setupDone && variant == OffscreenSync ==>
      r[0].RuntimeSend? && r[0].msg.action == PUSH_STATE_OFFSCREEN && r[0].msg.tabId == tabId
  {
    if !setupDone then []
    else
      var m := PushMessage(raw, tabId);
      OnPushSends(variant, tabId, m) + [RuntimeSend(m)]
  }

  /** What a state's `syncModule?.push()` sends; nothing while there is no module. */
  function ModulePushSends(variant: Option<Variant>, setupDone: bool, tabId: Option<int>, raw: Object): (r: seq<Outgoing>)
    requires variant.Some? ==> tabId.Some?
    ensures variant.None? ==> r == []
  {
    if variant.None? then [] else PushSends(variant.value, setupDone, tabId.value, raw)
  }

  // ------------------------------------------------------------------- pull

  function PullRequest(tabId: int): SyncMessage {
    SyncMessage(SYNC, PULL, None, None, tabId)
  }

  function RelayPullRequest(tabId: int): SyncMessage {
    SyncMessage(SYNC, PULL_STATE_OFFSCREEN, None, None, tabId)
  }

  /**
   * Awaiting `sendMessage(...).catch(() => undefined)`: `None` when the
   * promise never settles (the awaiting code never goes on), a rejection
   * becomes `undefined`.
   */
  function Awaited(o: SendOutcome): (r: Option<Option<Object>>)
    ensures r.None? <==> o.NeverSettles?
    ensures r.Some? && r.value.Some? <==> o.Resolved? && o.reply.Some?
    ensures o.Resolved? ==> r == Some(o.reply)
    ensures o.Rejected? ==> r == Some(None)
  {
    match o
    case Resolved(v, _) => Some(v)
    case Rejected(_) => Some(None)
    case NeverSettles => None
  }

  /** The sends a `pull` performs and what it does to the state. */
  datatype PullStep = PullStep(sends: seq<Outgoing>, replacement: Replacement)

  /**
   * The base `pull`'s last step: a fetched state is applied with source
   * `"sync"` only when it serialises differently from the current one.
   */
  function ApplyIfChanged(raw: Object, fetched: Option<Object>): (r: Replacement)
    ensures r.ReplaceWith? <==> fetched.Some? && fetched.value != raw
    ensures r.ReplaceWith? ==> r == ReplaceWith(fetched.value, FromSync)
  {
    if fetched.None? then Keep
    else
      StringifyInjective(raw, fetched.value);
      if Stringify(raw) == Stringify(fetched.value) then Keep
      else ReplaceWith(fetched.value, FromSync)
  }

  /**
   * The base `pull` (`ContentSyncModule`, `ExtensionSyncModule`): ask on the
   * runtime channel; the extension module's `onAfterPull` asks the state's
   * tab when no state came back; apply the result if it changes anything.
   */
  function BasePull(variant: Variant, tabId: int, raw: Object, runtimeReply: SendOutcome, tabReply: SendOutcome): (r: PullStep)
    ensures 1 <= |r.sends| <= 2 && r.sends[0] == RuntimeSend(PullRequest(tabId))
    ensures |r.sends| == 2 <==>
      variant == ExtensionSync && (runtimeReply.Rejected? || (runtimeReply.Resolved? && runtimeReply.reply.None?))
    ensures |r.sends| == 2 ==> r.sends[1] == TabSend(tabId, PullRequest(tabId))
    ensures runtimeReply.NeverSettles? ==> r.replacement == Keep
    ensures r.replacement.ReplaceWith? ==> r.replacement.source == FromSync && r.replacement.snapshot != raw
  {
    var ask := [RuntimeSend(PullRequest(tabId))];
    var first := Awaited(runtimeReply);
    if first.None? then PullStep(ask, Keep)
    else if variant == ExtensionSync && first.value.None? then
      var second := Awaited(tabReply);
      var sends := ask + [TabSend(tabId, PullRequest(tabId))];
      if second.None? then PullStep(sends, Keep)
      else PullStep(sends, ApplyIfChanged(raw, second.value))
    else
      PullStep(ask, ApplyIfChanged(raw, first.value))
  }

  /** How the offscreen `Promise.race` between the reply and the timer ends. */
  datatype RaceResult = ReplyFirst(reply: Option<Object>) | TimerFirst | RejectedFirst

  /** The reply wins when it settles strictly before the timer fires. */
  function Race(o: SendOutcome, timeoutMs: nat): (r: RaceResult)
    ensures r.ReplyFirst? <==> o.Resolved? && o.afterMs < timeoutMs
    ensures r.ReplyFirst? ==> r.reply == o.reply
    ensures r.RejectedFirst? <==> o.Rejected? && o.afterMs < timeoutMs
  {
    match o
    case Resolved(v, t) => if t < timeoutMs then ReplyFirst(v) else TimerFirst
    case Rejected(t) => if t < timeoutMs then RejectedFirst else TimerFirst
    case NeverSettles => TimerFirst
  }

  /**
   * The offscreen module's `pull`, which replaces the base one: ask the
   * background through the relay and replace the state with any state that
   * comes back in time, with source `"background"`.
   */
  function OffscreenPull(tabId: int, runtimeReply: SendOutcome): (r: PullStep)
    ensures r.sends == [RuntimeSend(RelayPullRequest(tabId))]
    ensures r.replacement.ReplaceWith? <==>
      runtimeReply.Resolved? && runtimeReply.afterMs < PULL_TIMEOUT_MS && runtimeReply.reply.Some?
    ensures r.replacement.ReplaceWith? ==> r.replacement == ReplaceWith(runtimeReply.reply.value, FromBackground)
  {
    var sends := [RuntimeSend(RelayPullRequest(tabId))];
    match Race(runtimeReply, PULL_TIMEOUT_MS)
    case ReplyFirst(Some(s)) => PullStep(sends, ReplaceWith(s, FromBackground))
    case _ => PullStep(sends, Keep)
  }

  /** `syncModule.pull()` for each module class. */
  function PullPlan(variant: Variant, tabId: int, raw: Object, runtimeReply: SendOutcome, tabReply: SendOutcome): (r: PullStep)
    ensures |r.sends| >= 1 && r.sends[0].RuntimeSend? && r.sends[0].msg.kind == SYNC && r.sends[0].msg.tabId == tabId
    ensures r.sends[0].msg.action == if variant == OffscreenSync then PULL_STATE_OFFSCREEN else PULL
    ensures r.replacement.ReplaceWith? ==>
      r.replacement.source == if variant == OffscreenSync then FromBackground else FromSync
    ensures runtimeReply.NeverSettles? ==> r.replacement == Keep
  {
    if variant == OffscreenSync then OffscreenPull(tabId, runtimeReply)
    else BasePull(variant, tabId, raw, runtimeReply, tabReply)
  }

  // ------------------------------------------------------- background relay

  /** What the background's `handleRuntimeMessage` does with a message. */
  datatype RelayAction = RelayIgnore | RelayApply(payload: Object) | RelayAnswer

  function Relay(env: Environment, m: RuntimeMessage): (d: RelayAction)
    ensures d.RelayApply? <==>
      IsSyncMessage(m) && env == Background && m.msg.action == PUSH_STATE_OFFSCREEN && m.msg.payload.Some?
    ensures d.RelayApply? ==> d.payload == m.msg.payload.value
    ensures d.RelayAnswer? <==>
      IsSyncMessage(m) && env == Background && m.msg.action == PULL_STATE_OFFSCREEN
  {
    if !IsSyncMessage(m) || env != Background then RelayIgnore
    else if m.msg.action == PUSH_STATE_OFFSCREEN && m.msg.payload.Some? then RelayApply(m.msg.payload.value)
    else if m.msg.action == PULL_STATE_OFFSCREEN then RelayAnswer
    else RelayIgnore
  }

  // ---------------------------------------------------------------- lemmas

  /**
   * A push reaches every context of the same tab, and every context scoped
   * to -1: the broadcast message replaces their state with the pusher's.
   */
  lemma PushReachesSameScope(variant: Variant, raw: Object, tabId: int, receiverTab: int, receiverRaw: Object, sender: Sender)
    requires receiverTab == tabId || receiverTab == WILDCARD || (tabId == WILDCARD && sender.tab == Some(receiverTab))
    ensures var sends := PushSends(variant, true, tabId, raw);
      Inbound(receiverTab, receiverRaw, Message(sends[|sends| - 1].msg), sender)
        == InboundResult(ReplaceWith(raw, FromSync), None)
  {
  }

  /** Contexts of two different tabs ignore each other's messages. */
  lemma ScopeIsolation(localTab: int, raw: Object, msg: SyncMessage, sender: Sender)
    requires localTab != WILDCARD && msg.tabId != WILDCARD && msg.tabId != localTab
    ensures Inbound(localTab, raw, Message(msg), sender) == InboundResult(Keep, None)
  {
  }

  /**
   * With a state in hand, the base `pull` replaces the current state exactly
   * when the fetched one differs from it, and then with source `"sync"`.
   */
  lemma BasePullAppliesOnlyChanges(variant: Variant, tabId: int, raw: Object, fetched: Object, ms: nat, tabReply: SendOutcome)
    requires variant != OffscreenSync
    ensures var step := BasePull(variant, tabId, raw, Resolved(Some(fetched), ms), tabReply);
      && step.sends == [RuntimeSend(PullRequest(tabId))]
      && step.replacement == if fetched == raw then Keep else ReplaceWith(fetched, FromSync)
  {
    StringifyInjective(raw, fetched);
  }

  /**
   * When the runtime channel gives no state, the extension module asks the
   * state's tab with a pull message and uses that answer; the content module
   * gives up.
   */
  lemma ExtensionPullFallsBackToTab(tabId: int, raw: Object, runtimeReply: SendOutcome, fetched: Object, ms: nat)
    requires runtimeReply == Resolved(None, ms) || runtimeReply.Rejected?
    ensures var step := BasePull(ExtensionSync, tabId, raw, runtimeReply, Resolved(Some(fetched), ms));
      && step.sends == [RuntimeSend(PullRequest(tabId)), TabSend(tabId, PullRequest(tabId))]
      && step.replacement == ApplyIfChanged(raw, Some(fetched))
    ensures BasePull(ContentSync, tabId, raw, runtimeReply, Resolved(Some(fetched), ms))
      == PullStep([RuntimeSend(PullRequest(tabId))], Keep)
  {
  }

  /**
   * The offscreen `pull` has no equality check: a timely answer equal to the
   * current state is still applied (with source `"background"`), where the
   * base `pull` would leave the state alone.
   */
  lemma OffscreenPullSkipsEqualityCheck(tabId: int, raw: Object, ms: nat, tabReply: SendOutcome)
    requires ms < PULL_TIMEOUT_MS
    ensures PullPlan(OffscreenSync, tabId, raw, Resolved(Some(raw), ms), tabReply).replacement
      == ReplaceWith(raw, FromBackground)
    ensures PullPlan(ContentSync, tabId, raw, Resolved(Some(raw), ms), tabReply).replacement == Keep
  {
    StringifyInjective(raw, raw);
  }

  /** An answer that comes too late, a rejected send, or no state at all leave the state alone. */
  lemma OffscreenPullFailuresKeepState(tabId: int, raw: Object, o: SendOutcome)
    requires
      || (o.Resolved? && (o.afterMs >= PULL_TIMEOUT_MS || o.reply.None?))
      || o.Rejected?
      || o.NeverSettles?
    ensures OffscreenPull(tabId, o) == PullStep([RuntimeSend(RelayPullRequest(tabId))], Keep)
  {
  }

  /**
   * The offscreen relay push is inert: the message the offscreen `onPush`
   * builds from any push message has no `payload`, so the background relay
   * ignores it.
   */
  lemma OffscreenRelayPushIsInert(raw: Object, tabId: int, relayTab: int)
    ensures Relay(Background, Message(RelayPushMessage(relayTab, PushMessage(raw, tabId)))) == RelayIgnore
  {
  }
}
