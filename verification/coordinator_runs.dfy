/**
 * Runs of the browser coordinator: any interleaving of page calls, flow
 * completions, cancellations and tab switches. Over every run the page's log
 * only grows, each child flow answers at most once, and a sign-message flow
 * dropped by its cancel delegate never answers.
 */
module CoordinatorRuns {
  import opened Options
  import opened DappTypes
  import opened MasterBrowser
  import opened BrowserCoordinator

  datatype Event =
    | Call(account: Option<Account>, action: DappAction, callbackID: int)
    | TransactionCompleted(handle: nat, result: FlowOutcome<ConfirmResult>)
    | MessageSigned(handle: nat, signature: FlowOutcome<Bytes>)
    | CancelReported(handle: nat)
    | GameSelected(viewType: GameViewType)
    | SegmentTapped(index: int)

  function Step(s: State, e: Event, hex: string -> Bytes): (r: State)
    requires Valid(s)
    ensures Valid(r)
    ensures s.page <= r.page
    ensures HandlersOnlyCleared(s, r)
    // a flow whose handler is already cleared adds nothing to the page
    ensures forall h :: h in s.flows && !s.flows[h].handlerSet ==> Unanswered(r.page[|s.page|..], h)
  {
    match e
    case Call(account, action, callbackID) => DidCall(s, account, action, callbackID, hex)
    case TransactionCompleted(h, result) => CompleteTransaction(s, h, result, hex)
    case MessageSigned(h, signature) => CompleteSigning(s, h, signature)
    case CancelReported(h) => ChildCancelled(s, h)
    case GameSelected(t) => SelectGame(s, t)
    case SegmentTapped(i) => SegmentChanged(s, i)
  }

  function Run(s: State, events: seq<Event>, hex: string -> Bytes): (r: State)
    requires Valid(s)
    ensures Valid(r)
    decreases |events|
  {
    if events == [] then s else Run(Step(s, events[0], hex), events[1..], hex)
  }

  /** The page's log is append-only: a run never retracts or reorders an answer. */
  lemma {:induction false} RunAppendsOnly(s: State, events: seq<Event>, hex: string -> Bytes)
    requires Valid(s)
    ensures s.page <= Run(s, events, hex).page
    decreases |events|
  {
    if events != [] {
      RunAppendsOnly(Step(s, events[0], hex), events[1..], hex);
    }
  }

  /** A flow whose handler has been cleared without answering never answers afterwards. */
  lemma {:induction false} ClearedFlowStaysSilent(s: State, h: nat, events: seq<Event>, hex: string -> Bytes)
    requires Valid(s) && h in s.flows && !s.flows[h].handlerSet && Unanswered(s.page, h)
    ensures Unanswered(Run(s, events, hex).page, h)
    decreases |events|
  {
    if events != [] {
      var s1 := Step(s, events[0], hex);
      assert s1.page == s.page + s1.page[|s.page|..];
      ClearedFlowStaysSilent(s1, h, events[1..], hex);
    }
  }

  /** From start-up, whatever happens, no child flow answers the page twice. */
  lemma EachFlowAnswersAtMostOnce(server: RPCServer, delegateAttached: bool, events: seq<Event>, hex: string -> Bytes)
    ensures AtMostOncePerFlow(Run(Start(server, delegateAttached), events, hex).page)
  {
  }

  /** An answer from a flow always carries the callback ID of the call that started it. */
  lemma AnswersNameTheirCall(s: State, events: seq<Event>, hex: string -> Bytes, i: nat)
    requires Valid(s) && i < |Run(s, events, hex).page|
    ensures var r := Run(s, events, hex);
      r.page[i].origin.FromFlow? ==> r.flows[r.page[i].origin.handle].callbackID == r.page[i].callbackID
  {
  }

  /**
   * A message call whose sign child reports a cancel is never answered: the
   * delegate drops the child, and the coordinator keeps no record of the
   * callback ID, so the page's callback stays pending for good.
   */
  lemma CancelledCallNeverAnswered(s: State, account: Option<Account>, action: DappAction, callbackID: int,
                                   events: seq<Event>, hex: string -> Bytes)
    requires Valid(s) && CanSign(account)
    requires action.SignMessage? || action.SignPersonalMessage? || action.SignTypedMessage?
    ensures var s1 := DidCall(s, account, action, callbackID, hex);
      Unanswered(Run(ChildCancelled(s1, s.nextHandle), events, hex).page, s.nextHandle)
  {
    var h := s.nextHandle;
    var s1 := DidCall(s, account, action, callbackID, hex);
    var s2 := ChildCancelled(s1, h);
    assert Unanswered(s2.page, h) by {
      forall i | 0 <= i < |s2.page| ensures s2.page[i].origin != FromFlow(h) {
        assert Accounted(s, s.page[i]);
      }
    }
    ClearedFlowStaysSilent(s2, h, events, hex);
  }

  /**
   * A transaction call that is confirmed is answered exactly once: the answer
   * appears right after the earlier log, carries the call's ID and mapped
   * response, and no other delivery, before or in any later run, comes from
   * that flow.
   */
  lemma CompletedCallAnsweredExactlyOnce(s: State, account: Option<Account>, tx: UnconfirmedTransaction, callbackID: int,
                                         result: FlowOutcome<ConfirmResult>, events: seq<Event>, hex: string -> Bytes)
    requires Valid(s) && CanSign(account)
    ensures var s1 := DidCall(s, account, SendTransaction(tx), callbackID, hex);
      var r := Run(CompleteTransaction(s1, s.nextHandle, result, hex), events, hex);
      && |s.page| < |r.page|
      && r.page[|s.page|] == Delivery(callbackID, s.master.current, TransactionResponse(callbackID, result, hex), FromFlow(s.nextHandle))
      && forall j :: 0 <= j < |r.page| && j != |s.page| ==> r.page[j].origin != FromFlow(s.nextHandle)
  {
    var h := s.nextHandle;
    var s1 := DidCall(s, account, SendTransaction(tx), callbackID, hex);
    var s2 := CompleteTransaction(s1, h, result, hex);
    var r := Run(s2, events, hex);
    RunAppendsOnly(s2, events, hex);
    assert r.page[|s.page|] == s2.page[|s.page|];
    forall j | 0 <= j < |r.page| && j != |s.page|
      ensures r.page[j].origin != FromFlow(h)
    {
      if j < |s.page| {
        assert r.page[j] == s.page[j];
        assert Accounted(s, s.page[j]);
      } else {
        assert AtMostOncePerFlow(r.page);
      }
    }
  }
}
