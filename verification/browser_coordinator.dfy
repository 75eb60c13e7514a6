/**
 * `BrowserCoordinator`: the native end of the DApp bridge. A page call
 * (`didCall`) either is refused at once (no signing wallet), is ignored
 * (unknown action), or starts a child flow: a confirm flow for transactions,
 * a sign-message flow for messages. A child flow that completes answers the
 * page once through `notifyFinish` on the tab current at that moment, then
 * clears its completion handler and is dropped. Only a sign-message child
 * gets this coordinator as its delegate; when it reports a cancel, its
 * `didCancel` drops it without any answer. A confirm child has no delegate,
 * so a cancel it reports reaches nothing here.
 *
 * Child coordinators are objects; `flows` maps each one ever created (by a
 * handle standing for its identity) to its callback ID, kind and whether its
 * completion handler is still set, and `coordinators` is the
 * `coordinators` array of the live ones.
 */
module BrowserCoordinator {
  import opened Options
  import opened DappTypes
  import opened MasterBrowser

  /** What a child coordinator was started to do, with the values it captured. */
  datatype FlowKind =
    | ConfirmFlow(account: Account, tx: UnconfirmedTransaction, confirmType: ConfirmType, server: RPCServer)
    | SignFlow(account: Account, messageType: SignMessageType)

  /**
   * A child coordinator: the call it answers, its kind, whether its completion
   * handler is set, and whether this coordinator was made its delegate.
   */
  datatype ChildFlow = ChildFlow(callbackID: int, kind: FlowKind, handlerSet: bool, delegateSet: bool)

  /**
   * Which code path produced an answer. This is bookkeeping of the model, not
   * something the page sees; it lets "each flow answers at most once" be stated.
   */
  datatype Origin = WatchOnlyGuard | FromFlow(handle: nat)

  /** One `notifyFinish(callbackID:value:)`, and the tab it was delivered to. */
  datatype Delivery = Delivery(callbackID: int, target: GameViewType, response: Response, origin: Origin)

  /** What the host application is told: an error shown on top, or `didSentTransaction`. */
  datatype HostEvent = OnlyWatchAccount | DidSentTransaction(tx: SentTransaction)

  datatype State = State(
    flows: map<nat, ChildFlow>,
    coordinators: seq<nat>,
    nextHandle: nat,
    page: seq<Delivery>,
    host: seq<HostEvent>,
    master: MasterState,
    delegateAttached: bool)

  /** `Constants.dappsGame…BrowserURL`: the start page of each game tab. */
  const RybURL: string := "http://test-socscan.allsportschain.com/pages/dapp/ryb/?language=en#/"
  const DiceURL: string := "http://test-socscan.allsportschain.com/pages/dapp/dice/?language=en"
  const GuessURL: string := "http://test-socscan.allsportschain.com/pages/dapp/guess/?language=en#/"

  predicate NoDuplicates(xs: seq<nat>) {
    forall i, j :: 0 <= i < j < |xs| ==> xs[i] != xs[j]
  }

  /** A delivery made by a flow names that flow's call, and that flow's handler is gone. */
  predicate Accounted(s: State, d: Delivery) {
    d.origin.FromFlow? ==>
      && d.origin.handle in s.flows
      && !s.flows[d.origin.handle].handlerSet
      && s.flows[d.origin.handle].callbackID == d.callbackID
  }

  /** No two deliveries come from the same flow. */
  predicate AtMostOncePerFlow(page: seq<Delivery>) {
    forall i, j :: 0 <= i < j < |page| && page[i].origin.FromFlow? ==> page[i].origin != page[j].origin
  }

  /** No delivery comes from flow `h`. */
  predicate Unanswered(page: seq<Delivery>, h: nat) {
    forall i :: 0 <= i < |page| ==> page[i].origin != FromFlow(h)
  }

  /** Between two states no flow is forgotten or changed, and no cleared handler is set again. */
  predicate HandlersOnlyCleared(s: State, r: State) {
    forall h :: h in s.flows ==>
      && h in r.flows
      && r.flows[h].callbackID == s.flows[h].callbackID
      && r.flows[h].kind == s.flows[h].kind
      && (!s.flows[h].handlerSet ==> !r.flows[h].handlerSet)
  }

  /** The coordinator's invariant. */
  predicate Valid(s: State) {
    && (forall h :: h in s.flows ==> h < s.nextHandle)
    && (forall x :: x in s.coordinators ==> x in s.flows)
    && (forall h :: h in s.flows ==> (s.flows[h].handlerSet <==> h in s.coordinators))
    && NoDuplicates(s.coordinators)
    // `signMessage` assigns `coordinator.delegate = self`; `executeTransaction` does not
    && (forall h :: h in s.flows ==> (s.flows[h].delegateSet <==> s.flows[h].kind.SignFlow?))
    && (forall i :: 0 <= i < |s.page| ==> Accounted(s, s.page[i]))
    && AtMostOncePerFlow(s.page)
  }

  /**
   * The coordinator after `start()` and the root view's `viewDidLoad`: three
   * tabs on the session's network, RYB shown, no child flows, nothing said yet.
   */
  function Start(server: RPCServer, delegateAttached: bool): (r: State)
    ensures Valid(r)
    ensures InSync(r.master) && r.master.current == Ryb
    ensures r.page == [] && r.host == [] && r.coordinators == []
  {
    var root := Init(BrowserView(RybURL, server), BrowserView(DiceURL, server), BrowserView(GuessURL, server), Ryb);
    State(map[], [], 0, [], [], ViewDidLoad(root), delegateAttached)
  }

  /** `removeCoordinator`: drop every occurrence of `h`. */
  function Without(xs: seq<nat>, h: nat): (r: seq<nat>)
    ensures forall x :: x in r <==> x in xs && x != h
    ensures NoDuplicates(xs) ==> NoDuplicates(r)
  {
    if xs == [] then []
    else if xs[0] == h then Without(xs[1..], h)
    else
      assert NoDuplicates(xs) ==> xs[0] !in xs[1..];
      [xs[0]] + Without(xs[1..], h)
  }

  /** `addCoordinator` of a fresh child whose completion handler is set; only a sign child gets a delegate. */
  function StartFlow(s: State, callbackID: int, kind: FlowKind): (r: State)
    requires Valid(s)
    ensures Valid(r)
    ensures s.nextHandle !in s.flows && r.nextHandle == s.nextHandle + 1
    ensures r.flows == s.flows[s.nextHandle := ChildFlow(callbackID, kind, true, kind.SignFlow?)]
    ensures r.coordinators == s.coordinators + [s.nextHandle]
    ensures r.page == s.page && r.host == s.host && r.master == s.master
  {
    var h := s.nextHandle;
    var r := s.(flows := s.flows[h := ChildFlow(callbackID, kind, true, kind.SignFlow?)], coordinators := s.coordinators + [h], nextHandle := h + 1);
    assert forall i :: 0 <= i < |s.page| ==> Accounted(r, s.page[i]) by {
      forall i | 0 <= i < |s.page| ensures Accounted(r, s.page[i]) {
        assert Accounted(s, s.page[i]);
      }
    }
    r
  }

  /** The flow `didCall` starts for `action`: its kind and the values it captures. */
  predicate Serves(kind: FlowKind, action: DappAction, account: Account, server: RPCServer, hex: string -> Bytes) {
    match action
    case SignTransaction(tx) => kind == ConfirmFlow(account, tx, SignThenSend, server)
    case SendTransaction(tx) => kind == ConfirmFlow(account, tx, SignThenSend, server)
    case SignMessage(m) => kind == SignFlow(account, Message(hex(m)))
    case SignPersonalMessage(m) => kind == SignFlow(account, PersonalMessage(hex(m)))
    case SignTypedMessage(typed) => kind == SignFlow(account, TypedMessage(typed))
    case Unknown => false
  }

  /**
   * `didCall(action:callbackID:)` while the session's current account is
   * `account`. `hex` is `Data(hex:)`.
   */
  function DidCall(s: State, account: Option<Account>, action: DappAction, callbackID: int, hex: string -> Bytes): (r: State)
    requires Valid(s)
    ensures Valid(r)
    ensures HandlersOnlyCleared(s, r)
    ensures r.master == s.master && r.delegateAttached == s.delegateAttached
    // no signing wallet: one `cancelled` answer to the shown tab, the host is told, no flow starts
    ensures !CanSign(account) ==>
      && r.page == s.page + [Delivery(callbackID, s.master.current, Failure(Cancelled), WatchOnlyGuard)]
      && r.host == s.host + [OnlyWatchAccount]
      && r.flows == s.flows && r.coordinators == s.coordinators
    // a signing wallet: nothing is answered now
    ensures CanSign(account) ==> r.page == s.page && r.host == s.host
    ensures CanSign(account) && action.Unknown? ==> r == s
    // otherwise exactly one new flow, armed, for this call, capturing the shown tab's network
    ensures CanSign(account) && !action.Unknown? ==>
      && s.nextHandle !in s.flows
      && r.flows.Keys == s.flows.Keys + {s.nextHandle}
      && (forall h :: h in s.flows ==> r.flows[h] == s.flows[h])
      && r.flows[s.nextHandle].callbackID == callbackID
      && r.flows[s.nextHandle].handlerSet
      && (r.flows[s.nextHandle].delegateSet <==> !(action.SignTransaction? || action.SendTransaction?))
      && r.coordinators == s.coordinators + [s.nextHandle]
      && Serves(r.flows[s.nextHandle].kind, action, account.value, CurrentView(s.master).server, hex)
  {
    if !CanSign(account) then
      s.(page := s.page + [Delivery(callbackID, s.master.current, Failure(Cancelled), WatchOnlyGuard)],
         host := s.host + [OnlyWatchAccount])
    else
      var acc := account.value;
      var server := CurrentView(s.master).server;
      match action
      case SignTransaction(tx) => StartFlow(s, callbackID, ConfirmFlow(acc, tx, SignThenSend, server))
      case SendTransaction(tx) => StartFlow(s, callbackID, ConfirmFlow(acc, tx, SignThenSend, server))
      case SignMessage(m) => StartFlow(s, callbackID, SignFlow(acc, Message(hex(m))))
      case SignPersonalMessage(m) => StartFlow(s, callbackID, SignFlow(acc, PersonalMessage(hex(m))))
      case SignTypedMessage(typed) => StartFlow(s, callbackID, SignFlow(acc, TypedMessage(typed)))
      case Unknown => s
  }

  /** Flow `h` exists and its completion handler is still set. */
  predicate Armed(s: State, h: nat) {
    h in s.flows && s.flows[h].handlerSet
  }

  /**
   * The end of a completion closure: answer the page on the current tab,
   * clear the handler (`didComplete = nil`) and `removeCoordinator`.
   */
  function Finish(s: State, h: nat, response: Response): (r: State)
    requires Valid(s) && Armed(s, h)
    ensures Valid(r)
    ensures r.page == s.page + [Delivery(s.flows[h].callbackID, s.master.current, response, FromFlow(h))]
    ensures r.flows == s.flows[h := s.flows[h].(handlerSet := false)]
    ensures h !in r.coordinators
    ensures forall x :: x in r.coordinators <==> x in s.coordinators && x != h
    ensures r.host == s.host && r.master == s.master && r.nextHandle == s.nextHandle
  {
    var f := s.flows[h];
    var d := Delivery(f.callbackID, s.master.current, response, FromFlow(h));
    var r := s.(page := s.page + [d], flows := s.flows[h := f.(handlerSet := false)], coordinators := Without(s.coordinators, h));
    assert forall i :: 0 <= i < |r.page| ==> Accounted(r, r.page[i]) by {
      forall i | 0 <= i < |r.page| ensures Accounted(r, r.page[i]) {
        if i < |s.page| {
          assert r.page[i] == s.page[i];
          assert Accounted(s, s.page[i]);
        }
      }
    }
    assert AtMostOncePerFlow(r.page) by {
      forall i, j | 0 <= i < j < |r.page| && r.page[i].origin.FromFlow?
        ensures r.page[i].origin != r.page[j].origin
      {
        assert Accounted(s, s.page[i]);
        if j == |s.page| {
          assert r.page[j].origin == FromFlow(h);
        } else {
          assert r.page[j] == s.page[j];
        }
      }
    }
    r
  }

  /** `didCompleted` of confirm flow `h` with `result`; a no-op unless that handler is still set. */
  function CompleteTransaction(s: State, h: nat, result: FlowOutcome<ConfirmResult>, hex: string -> Bytes): (r: State)
    requires Valid(s)
    ensures Valid(r)
    ensures HandlersOnlyCleared(s, r)
    ensures r.master == s.master && r.nextHandle == s.nextHandle
    ensures !(Armed(s, h) && s.flows[h].kind.ConfirmFlow?) ==> r == s
    ensures Armed(s, h) && s.flows[h].kind.ConfirmFlow? ==>
      && r.page == s.page + [Delivery(s.flows[h].callbackID, s.master.current,
                                      TransactionResponse(s.flows[h].callbackID, result, hex), FromFlow(h))]
      && !Armed(r, h) && h !in r.coordinators
      // the host delegate hears of the transaction on both success branches only
      && r.host == s.host + (if result.Succeeded? && s.delegateAttached then [DidSentTransaction(result.value.tx)] else [])
  {
    if Armed(s, h) && s.flows[h].kind.ConfirmFlow? then
      var f := s.flows[h];
      var host := match result
        case Succeeded(c) => if s.delegateAttached then s.host + [DidSentTransaction(c.tx)] else s.host
        case Failed => s.host;
      Finish(s, h, TransactionResponse(f.callbackID, result, hex)).(host := host)
    else
      s
  }

  /** `didComplete` of sign-message flow `h` with `result`; a no-op unless that handler is still set. */
  function CompleteSigning(s: State, h: nat, result: FlowOutcome<Bytes>): (r: State)
    requires Valid(s)
    ensures Valid(r)
    ensures HandlersOnlyCleared(s, r)
    ensures r.master == s.master && r.host == s.host && r.nextHandle == s.nextHandle
    ensures !(Armed(s, h) && s.flows[h].kind.SignFlow?) ==> r == s
    ensures Armed(s, h) && s.flows[h].kind.SignFlow? ==>
      && r.page == s.page + [Delivery(s.flows[h].callbackID, s.master.current,
                                      MessageResponse(s.flows[h].callbackID, s.flows[h].kind.messageType, result), FromFlow(h))]
      && !Armed(r, h) && h !in r.coordinators
  {
    if Armed(s, h) && s.flows[h].kind.SignFlow? then
      var f := s.flows[h];
      Finish(s, h, MessageResponse(f.callbackID, f.kind.messageType, result))
    else
      s
  }

  /** A `didCancel` delegate: clear the handler and `removeCoordinator`, answering nothing. */
  function Drop(s: State, h: nat): (r: State)
    requires Valid(s) && h in s.flows
    ensures Valid(r)
    ensures r.page == s.page && r.host == s.host && r.master == s.master && r.nextHandle == s.nextHandle
    ensures r.flows == s.flows[h := s.flows[h].(handlerSet := false)]
    ensures forall x :: x in r.coordinators <==> x in s.coordinators && x != h
  {
    var r := s.(flows := s.flows[h := s.flows[h].(handlerSet := false)], coordinators := Without(s.coordinators, h));
    assert forall i :: 0 <= i < |r.page| ==> Accounted(r, r.page[i]) by {
      forall i | 0 <= i < |r.page| ensures Accounted(r, r.page[i]) {
        assert Accounted(s, s.page[i]);
      }
    }
    r
  }

  /**
   * The body of `didCancel(in: ConfirmCoordinator)`. `executeTransaction`
   * never makes this coordinator a confirm child's delegate, so no cancel
   * reported by a confirm child reaches it (see `ChildCancelled`).
   */
  function CancelConfirm(s: State, h: nat): (r: State)
    requires Valid(s)
    ensures Valid(r)
    ensures HandlersOnlyCleared(s, r)
    ensures r.page == s.page && r.host == s.host && r.master == s.master
    ensures h in s.flows && s.flows[h].kind.ConfirmFlow? ==> !Armed(r, h) && h in r.flows && h !in r.coordinators
    ensures !(h in s.flows && s.flows[h].kind.ConfirmFlow?) ==> r == s
  {
    if h in s.flows && s.flows[h].kind.ConfirmFlow? then Drop(s, h) else s
  }

  /** The body of `didCancel(in: SignMessageCoordinator)`. */
  function CancelSigning(s: State, h: nat): (r: State)
    requires Valid(s)
    ensures Valid(r)
    ensures HandlersOnlyCleared(s, r)
    ensures r.page == s.page && r.host == s.host && r.master == s.master
    ensures h in s.flows && s.flows[h].kind.SignFlow? ==> !Armed(r, h) && h in r.flows && h !in r.coordinators
    ensures !(h in s.flows && s.flows[h].kind.SignFlow?) ==> r == s
  {
    if h in s.flows && s.flows[h].kind.SignFlow? then Drop(s, h) else s
  }

  /**
   * Child `h` reports a cancel through `delegate?.didCancel(in:)`: it reaches
   * this coordinator only if it is the child's delegate, which holds for sign
   * children alone. A confirm child's report changes nothing.
   */
  function ChildCancelled(s: State, h: nat): (r: State)
    requires Valid(s)
    ensures Valid(r)
    ensures HandlersOnlyCleared(s, r)
    ensures r.page == s.page && r.host == s.host && r.master == s.master
    ensures h in s.flows && s.flows[h].kind.SignFlow? ==> !Armed(r, h) && h in r.flows && h !in r.coordinators
    ensures !(h in s.flows && s.flows[h].kind.SignFlow?) ==> r == s
  {
    if h in s.flows && s.flows[h].delegateSet then CancelSigning(s, h) else s
  }

  /** A game chosen from the game sheet: `rootViewController.select(viewType:)`. */
  function SelectGame(s: State, viewType: GameViewType): (r: State)
    requires Valid(s)
    ensures Valid(r)
    ensures r.master.current == viewType && InSync(r.master)
    ensures r.flows == s.flows && r.page == s.page && r.host == s.host
  {
    s.(master := Select(s.master, viewType))
  }

  /** The user taps segment `index`; the delegate's `didPressAction` does nothing with it. */
  function SegmentChanged(s: State, index: int): (r: State)
    requires Valid(s)
    ensures Valid(r)
    ensures r.master.current == TabForIndex(index) && InSync(r.master)
    ensures r.flows == s.flows && r.page == s.page && r.host == s.host
  {
    s.(master := SelectionDidChange(s.master, index).state)
  }

  /** `signTransaction` and `sendTransaction` are handled identically. */
  lemma SignAndSendAlike(s: State, account: Option<Account>, tx: UnconfirmedTransaction, callbackID: int, hex: string -> Bytes)
    requires Valid(s)
    ensures DidCall(s, account, SignTransaction(tx), callbackID, hex) == DidCall(s, account, SendTransaction(tx), callbackID, hex)
  {
  }

  /** Once a flow has answered or been cancelled, completing it again changes nothing. */
  lemma SecondCompletionSilent(s: State, h: nat, first: FlowOutcome<ConfirmResult>, second: FlowOutcome<ConfirmResult>,
                               signature: FlowOutcome<Bytes>, again: FlowOutcome<Bytes>, hex: string -> Bytes)
    requires Valid(s)
    ensures var t := CompleteTransaction(s, h, first, hex); CompleteTransaction(t, h, second, hex) == t
    ensures var t := CompleteSigning(s, h, signature); CompleteSigning(t, h, again) == t
    ensures var t := CancelConfirm(s, h); CompleteTransaction(t, h, second, hex) == t
    ensures var t := CancelSigning(s, h); CompleteSigning(t, h, again) == t
  {
  }

  /**
   * The answer goes to the tab shown when the flow ends, not to the tab that
   * made the call: a transaction requested from the dice tab and confirmed
   * after the user switched to RYB is answered on the RYB tab.
   */
  lemma AnswerFollowsShownTab(s: State, account: Option<Account>, tx: UnconfirmedTransaction, callbackID: int,
                              result: FlowOutcome<ConfirmResult>, hex: string -> Bytes)
    requires Valid(s) && CanSign(account) && s.master.current == Dice
    ensures var s1 := DidCall(s, account, SendTransaction(tx), callbackID, hex);
      var s2 := SelectGame(s1, Ryb);
      var s3 := CompleteTransaction(s2, s.nextHandle, result, hex);
      && s1.flows[s.nextHandle].kind.server == s.master.dice.server
      && |s3.page| == |s.page| + 1
      && s3.page[|s.page|].callbackID == callbackID
      && s3.page[|s.page|].target == Ryb
  {
  }

  /**
   * A transaction call whose confirm child reports a cancel stays pending: the
   * child is still armed and listed, and a later completion still answers it.
   */
  lemma ConfirmCancelNotDelivered(s: State, account: Option<Account>, tx: UnconfirmedTransaction, callbackID: int,
                                  result: FlowOutcome<ConfirmResult>, hex: string -> Bytes)
    requires Valid(s) && CanSign(account)
    ensures var s1 := DidCall(s, account, SendTransaction(tx), callbackID, hex);
      var s2 := ChildCancelled(s1, s.nextHandle);
      && s2 == s1
      && Armed(s2, s.nextHandle) && s.nextHandle in s2.coordinators
      && |CompleteTransaction(s2, s.nextHandle, result, hex).page| == |s.page| + 1
  {
  }

  /** Nothing rejects a callback ID already in use: two calls with one ID start two flows. */
  lemma DuplicateCallbackIDsAccepted(s: State, account: Option<Account>, a: DappAction, b: DappAction, callbackID: int, hex: string -> Bytes)
    requires Valid(s) && CanSign(account) && !a.Unknown? && !b.Unknown?
    ensures var s2 := DidCall(DidCall(s, account, a, callbackID, hex), account, b, callbackID, hex);
      && s.nextHandle in s2.flows && s.nextHandle + 1 in s2.flows
      && s2.flows[s.nextHandle].callbackID == callbackID == s2.flows[s.nextHandle + 1].callbackID
      && Armed(s2, s.nextHandle) && Armed(s2, s.nextHandle + 1)
      && s2.page == s.page
  {
  }

  /**
   * Call 7 asks to sign the personal message "0xdeadbeef"; the sign screen is
   * given the hex-decoded bytes, and the signature comes back under ID 7
   * tagged as a personal-message signature.
   */
  lemma PersonalMessageAnswered(s: State, account: Option<Account>, signature: Bytes, hex: string -> Bytes)
    requires Valid(s) && CanSign(account)
    ensures var s1 := DidCall(s, account, SignPersonalMessage("0xdeadbeef"), 7, hex);
      var s2 := CompleteSigning(s1, s.nextHandle, Succeeded(signature));
      && s1.flows[s.nextHandle].kind == SignFlow(account.value, PersonalMessage(hex("0xdeadbeef")))
      && s2.page == s.page + [Delivery(7, s.master.current,
                                       Success(DappCallback(7, SignPersonalMessageResult(signature))), FromFlow(s.nextHandle))]
  {
  }

  /** Call 3 asks to send a transaction from a watch-only account: it is answered `cancelled` at once. */
  lemma WatchOnlySendRefused(s: State, address: string, tx: UnconfirmedTransaction, hex: string -> Bytes)
    requires Valid(s)
    ensures var r := DidCall(s, Some(Account(address, None)), SendTransaction(tx), 3, hex);
      && r.page == s.page + [Delivery(3, s.master.current, Failure(Cancelled), WatchOnlyGuard)]
      && r.host == s.host + [OnlyWatchAccount]
      && r.flows == s.flows
  {
  }
}
