# Trust browser: DApp bridge, game tabs and image URLs

A Dafny model of three pieces of the wallet's in-app browser:

- **The DApp bridge in `BrowserCoordinator`.** A page running in a game tab calls `didCall(action:callbackID:)`.
  - An account without a signing wallet is answered `failure(cancelled)` at once, and the host is shown `onlyWatchAccount`.
  - An `.unknown` action is ignored.
  - Every other action starts a child flow: a confirm flow for transactions, a sign-message flow for messages.
  - When a flow's completion closure runs, it answers the page exactly once through `notifyFinish`, clears its handler and removes the child.
  - Only `signMessage` makes the coordinator its child's delegate (`coordinator.delegate = self`); `executeTransaction` does not. So a cancel reported by a sign-message child reaches `didCancel`, which removes the child without answering. A cancel reported by a confirm child reaches nothing: the confirm flow stays armed and listed until its completion closure runs.
  - The JavaScript `alert`/`confirm`/`prompt` panels are one-shot answer functions.
- **The game tab container `MasterBrowserViewController`.** A segment index selects one of three tabs (RYB, dice, guess). `updateView` attaches exactly that tab and makes it current; every index other than 0 and 1 falls through to guess.
- **`ImageURLFormatter`.** It builds coin and token icon URLs on the image host and returns the chain logo URL.

The coordinator is a pure state record (`BrowserCoordinator.State`) with these parts:
- the child flows: each has a handle standing for its identity, a callback ID, a kind, whether its completion handler is set, and whether the coordinator is its delegate;
- the `coordinators` array;
- an append-only log of what `notifyFinish` delivered, and to which tab;
- a log of what the host was told;
- the tab container.

`CoordinatorRuns` runs any sequence of calls, completions, cancellations and tab switches. Over every run it proves three things:
- the invariant `Valid` holds;
- the page log only grows;
- no flow answers twice, and a sign-message flow dropped by its cancel delegate never answers.

The code keeps no table of pending callback IDs, so:
- There is no duplicate-ID check, no queue of confirmations and no "cancel all". A reused callback ID starts a second flow (`DuplicateCallbackIDsAccepted`).
- The `didCancel` delegates answer nothing (`CancelledCallNeverAnswered`). Whether a child also calls its completion with a failure when the user cancels is decided inside `ConfirmCoordinator` and `SignMessageCoordinator`, which are not part of this model.
- A confirm child's reported cancel is not seen by the coordinator at all, because it has no delegate (`ConfirmCancelNotDelivered`).

Further facts about the code:
- `signTransaction` is confirmed with `.signThenSend`, exactly like `sendTransaction`.
- Every failure reaches the page as `cancelled`, including the watch-only refusal. No failure carries a more specific code.
- `didSentTransaction` is raised to the host on both success branches, including a transaction that was only signed.
- The answer goes to the tab that is current when the flow ends, which need not be the tab that made the call (`AnswerFollowsShownTab`).

`Delivery.origin` is model bookkeeping. It records which code path made an answer, so that "at most one answer per flow" can be stated. The page never sees it.

## Model

| member | source | states |
|---|---|---|
| Text.Lowercase | Trust/Core/Formatters/ImageURLFormatter.swift:13 | lowercasing keeps the length, lowercases each ASCII letter, keeps every other character and leaves no upper-case letter |
| Text.LowercaseKeepsLower | Trust/Core/Formatters/ImageURLFormatter.swift:13 | a string with no upper-case letter is its own lowercase |
| Text.LowercaseIdempotent | Trust/Core/Formatters/ImageURLFormatter.swift:13 | lowercasing twice equals lowercasing once |
| Text.Decimal | Trust/Core/Formatters/ImageURLFormatter.swift:9 | interpolating a non-negative raw value gives a non-empty digit string with no leading zero |
| Text.ParseDecimalOfDecimal | Trust/Core/Formatters/ImageURLFormatter.swift:9 | reading the rendered digits back gives the original number |
| Text.DecimalOfParseDecimal | Trust/Core/Formatters/ImageURLFormatter.swift:9 | every canonical digit string is the rendering of the number it denotes |
| Text.DecimalInjective | Trust/Core/Formatters/ImageURLFormatter.swift:9 | two numbers render alike exactly when they are equal |
| ImageURLFormatter.CoinImage | Trust/Core/Formatters/ImageURLFormatter.swift:8-10 | the coin URL is the image base, then `/coins/`, then a canonical decimal, then `.png` |
| ImageURLFormatter.TokenImage | Trust/Core/Formatters/ImageURLFormatter.swift:12-14 | the token URL is the image base, then `/tokens/`, then the lowercased contract, then `.png` |
| ImageURLFormatter.SocImage | Trust/Core/Formatters/ImageURLFormatter.swift:16-18 | the chain logo is a fixed `.png` URL that is not under the image base |
| ImageURLFormatter.CoinOfImage | Trust/Core/Formatters/ImageURLFormatter.swift:8-10 | any coin the parser recovers from a URL rebuilds exactly that URL |
| ImageURLFormatter.TokenOfImage | Trust/Core/Formatters/ImageURLFormatter.swift:12-14 | any contract the parser recovers from a URL rebuilds exactly that URL |
| ImageURLFormatter.CoinImageRoundTrip | Trust/Core/Formatters/ImageURLFormatter.swift:8-10 | the coin raw value can be recovered from its URL |
| ImageURLFormatter.TokenImageRoundTrip | Trust/Core/Formatters/ImageURLFormatter.swift:12-14 | the lowercased contract can be recovered from its URL |
| ImageURLFormatter.CoinImageInjective | Trust/Core/Formatters/ImageURLFormatter.swift:8-10 | two coins share a URL exactly when their raw values are equal |
| ImageURLFormatter.TokenImageCaseInsensitive | Trust/Core/Formatters/ImageURLFormatter.swift:13 | a contract and its lowercase get the same URL |
| ImageURLFormatter.TokenImageEqualIff | Trust/Core/Formatters/ImageURLFormatter.swift:12-14 | two contracts share a URL exactly when they are equal up to ASCII case |
| ImageURLFormatter.CoinAndTokenImagesDisjoint | Trust/Core/Formatters/ImageURLFormatter.swift:8-14 | no coin URL equals any token URL |
| ImageURLFormatter.ImagesUnderHost | Trust/Core/Formatters/ImageURLFormatter.swift:8-14 | every coin and token URL starts with the image base and ends with `.png` |
| ImageURLFormatter.SocImageDistinct | Trust/Core/Formatters/ImageURLFormatter.swift:8-18 | the chain logo URL is neither a coin URL nor a token URL |
| DappTypes.TransactionResponse | Trust/Browser/Coordinators/BrowserCoordinator.swift:124-146 | success answers under the flow's callback ID: the signed bytes for a signed transaction, the hex-decoded ID for a sent one; failure answers `cancelled` |
| DappTypes.MessageResponse | Trust/Browser/Coordinators/BrowserCoordinator.swift:173-187 | success carries the signature under the callback ID, tagged by the requested message variant; failure answers `cancelled` |
| DappTypes.TransactionTagFollowsResult | Trust/Browser/Coordinators/BrowserCoordinator.swift:126-140 | a success answer is tagged sign-transaction exactly for a signed result and sent-transaction exactly for a sent one |
| MasterBrowser.RawValue | Trust/Browser/ViewControllers/MasterBrowserViewController.swift:14-18 | the raw values of the game types lie in 0..2 |
| MasterBrowser.FromRawValue | Trust/Browser/ViewControllers/MasterBrowserViewController.swift:14-18 | building a game type from a raw value succeeds exactly for 0..2, and then it has that raw value |
| MasterBrowser.RawValueRoundTrip | Trust/Browser/ViewControllers/MasterBrowserViewController.swift:14-18 | a game type is recovered from its raw value |
| MasterBrowser.Init | Trust/Browser/ViewControllers/MasterBrowserViewController.swift:41-55 | init records the requested type's index, but leaves RYB current with nothing attached, so the container is not yet in sync |
| MasterBrowser.UpdateView | Trust/Browser/ViewControllers/MasterBrowserViewController.swift:81-98 | afterwards the current tab is the one the index selects, and it is the only attached child; the index and the tabs are unchanged |
| MasterBrowser.ViewDidLoad | Trust/Browser/ViewControllers/MasterBrowserViewController.swift:57-79 | loading the view brings the container in sync with its index |
| MasterBrowser.Select | Trust/Browser/ViewControllers/MasterBrowserViewController.swift:62-65 | after selecting a game type, that tab is current and alone attached, and the index is its raw value |
| MasterBrowser.SelectionDidChange | Trust/Browser/ViewControllers/MasterBrowserViewController.swift:100-107 | the view is always updated to the tapped index; the delegate hears `.view(current)` exactly when the index is 0..2 |
| MasterBrowser.UpdateViewByIndex | Trust/Browser/ViewControllers/MasterBrowserViewController.swift:81-98 | index 0 shows RYB, index 1 dice, and every other index shows guess |
| MasterBrowser.UpdateViewAttachesOne | Trust/Browser/ViewControllers/MasterBrowserViewController.swift:83-96 | a tab is attached after the update exactly when it is the current one |
| MasterBrowser.InitSyncsOnLoad | Trust/Browser/ViewControllers/MasterBrowserViewController.swift:47-79 | the requested type is current once the view loads; before that, only when it is RYB |
| JavaScriptPanels.Answer | Trust/Browser/Coordinators/BrowserCoordinator.swift:346-396 | only the panel's own buttons answer, with the handler's type: alert OK gives unit; confirm gives true exactly for OK; prompt OK gives the field text or else the default; prompt Cancel gives nil |
| JavaScriptPanels.UntouchedPromptAnswersDefault | Trust/Browser/Coordinators/BrowserCoordinator.swift:382-390 | confirming a prompt whose field still holds its initial text answers the default text |
| BrowserCoordinator.Start | Trust/Browser/Coordinators/BrowserCoordinator.swift:24-54 | the coordinator starts valid, with RYB shown and in sync, no child flows and nothing said to the page or the host |
| BrowserCoordinator.StartFlow | Trust/Browser/Coordinators/BrowserCoordinator.swift:115-123 | adding a child registers a fresh, armed flow and appends it to the children, keeping the invariant |
| BrowserCoordinator.DidCall | Trust/Browser/Coordinators/BrowserCoordinator.swift:295-315 | with no signing wallet: one `cancelled` answer to the shown tab, `onlyWatchAccount` to the host and no flow. Otherwise nothing is answered now: an unknown action changes nothing, and any other action starts one armed flow for its callback ID, of the kind the action asks for, on the shown tab's network |
| BrowserCoordinator.Finish | Trust/Browser/Coordinators/BrowserCoordinator.swift:147-148 | finishing appends one answer from the flow, clears its handler and removes it from the children, keeping the invariant |
| BrowserCoordinator.CompleteTransaction | Trust/Browser/Coordinators/BrowserCoordinator.swift:124-150 | an armed confirm flow answers once under its callback ID with the mapped response, on the current tab, and is then disarmed and removed; the host hears `didSentTransaction` only on success; anything else is a no-op |
| BrowserCoordinator.CompleteSigning | Trust/Browser/Coordinators/BrowserCoordinator.swift:171-190 | an armed sign flow answers once under its callback ID with the variant-tagged response, and is then disarmed and removed; anything else is a no-op |
| BrowserCoordinator.Drop | Trust/Browser/Coordinators/BrowserCoordinator.swift:323-334 | a `didCancel` body clears the handler and removes the child without touching the page or host logs |
| BrowserCoordinator.CancelConfirm | Trust/Browser/Coordinators/BrowserCoordinator.swift:330-334 | the body of the confirm `didCancel` disarms and removes the flow and answers nothing; no run reaches it, because no confirm child has this coordinator as delegate |
| BrowserCoordinator.CancelSigning | Trust/Browser/Coordinators/BrowserCoordinator.swift:323-326 | the body of the sign `didCancel` disarms and removes the flow and answers nothing |
| BrowserCoordinator.ChildCancelled | Trust/Browser/Coordinators/BrowserCoordinator.swift:107-194 | a cancel reported by a sign child drops it without answering; one reported by a confirm child changes nothing, since only `signMessage` sets the delegate |
| BrowserCoordinator.SelectGame | Trust/Browser/Coordinators/BrowserCoordinator.swift:214-226 | choosing a game from the sheet shows that tab and leaves flows and logs alone |
| BrowserCoordinator.SegmentChanged | Trust/Browser/ViewControllers/MasterBrowserViewController.swift:100-107 | tapping a segment shows the tab its index selects and leaves flows and logs alone |
| BrowserCoordinator.SignAndSendAlike | Trust/Browser/Coordinators/BrowserCoordinator.swift:302-305 | a sign-transaction call and a send-transaction call of the same transaction lead to the same state |
| BrowserCoordinator.SecondCompletionSilent | Trust/Browser/Coordinators/BrowserCoordinator.swift:124-190 | after a flow has completed or been cancelled, completing it again changes nothing |
| BrowserCoordinator.AnswerFollowsShownTab | Trust/Browser/Coordinators/BrowserCoordinator.swift:131-138 | a send requested from the dice tab uses the dice tab's network, but is answered on RYB when RYB is shown at completion |
| BrowserCoordinator.ConfirmCancelNotDelivered | Trust/Browser/Coordinators/BrowserCoordinator.swift:107-153 | after a confirm child reports a cancel, the transaction call is still pending: the flow stays armed and listed, and a later completion still answers it |
| BrowserCoordinator.DuplicateCallbackIDsAccepted | Trust/Browser/Coordinators/BrowserCoordinator.swift:295-315 | two calls with one callback ID start two armed flows with that ID, and neither is refused |
| BrowserCoordinator.PersonalMessageAnswered | Trust/Browser/Coordinators/BrowserCoordinator.swift:165-194 | call 7 to sign "0xdeadbeef" signs the hex-decoded bytes and is answered once under ID 7 as a personal-message signature |
| BrowserCoordinator.WatchOnlySendRefused | Trust/Browser/Coordinators/BrowserCoordinator.swift:296-299 | a send from a watch-only account is answered `cancelled` under its ID at once, the host is told, and no flow starts |
| CoordinatorRuns.Step | Trust/Browser/Coordinators/BrowserCoordinator.swift:124-334 | every event keeps the invariant, only appends to the page log, never re-arms a flow, and never lets a disarmed flow answer |
| CoordinatorRuns.Run | Trust/Browser/Coordinators/BrowserCoordinator.swift:124-334 | any sequence of events keeps the invariant |
| CoordinatorRuns.RunAppendsOnly | Trust/Browser/Coordinators/BrowserCoordinator.swift:124-334 | over any run, earlier answers stay in the page log, in order |
| CoordinatorRuns.ClearedFlowStaysSilent | Trust/Browser/Coordinators/BrowserCoordinator.swift:323-334 | a flow disarmed without answering never answers in any later run |
| CoordinatorRuns.EachFlowAnswersAtMostOnce | Trust/Browser/Coordinators/BrowserCoordinator.swift:147-189 | from start-up, over any run, no flow answers the page twice |
| CoordinatorRuns.AnswersNameTheirCall | Trust/Browser/Coordinators/BrowserCoordinator.swift:124-187 | every answer from a flow carries the callback ID of the call that started the flow |
| CoordinatorRuns.CompletedCallAnsweredExactlyOnce | Trust/Browser/Coordinators/BrowserCoordinator.swift:124-148 | a confirmed transaction call is answered once, under its ID with the mapped response, and never again in any later run |
| CoordinatorRuns.CancelledCallNeverAnswered | Trust/Browser/Coordinators/BrowserCoordinator.swift:323-326 | a message call whose sign child reports a cancel is never answered, whatever happens next |

## Left out

- Presentation and dismissal of view controllers, the alert sheets, toolbar and segmented-control layout, `BrowserNavigationBar` and sharing via Branch. These are UIKit and third-party SDK calls with no logic to state.
- `runAction`, `openURL`, `handleToolbar`, `didVisitURL`, `scrollOnTop` and the new-window web-view hook. They drive the web engine, the URL parser and the history store, which are external.
- The bookmark and history stores. They are persistence.
- The internals of `ConfirmCoordinator`, `SignMessageCoordinator`, the keystore and the network. Each flow is reduced to the outcome it hands its completion closure, and to the cancel it may report to its delegate. Whether a child reports a cancel through its completion as well is not modelled.
- `Data(hex:)`. It is not shown, so it is the parameter `hex`.
- `addCoordinator`/`removeCoordinator`. `Coordinator.swift` is not part of this model. Adding is modelled as appending, and removing as dropping every occurrence of that child.
- The optional chaining on `topViewController?` and the weak or unowned `self` in the closures. The model assumes the coordinator is alive and has a top view, so the watch-only error always reaches the host.
- `didPressAction`. Every branch is an empty `break`, so the delegate notification from a segment tap changes nothing.
- `sendContractTransferCoordinator`. It is a network call with a hard-coded key and file loading.
- Text.Lowercase: follows ASCII case only, because Unicode case mapping is not modelled.
- ImageURLFormatter.CoinImage: a coin's raw value is taken as a non-negative integer, because the `Coin` enum of the wallet's core library is not part of this model.
