/**
 * `MasterBrowserViewController`: a container of three game tabs (RYB, dice,
 * guess) of which exactly one is shown. A segmented control holds the
 * selected index; `updateView` attaches the matching tab, detaches the others
 * and makes it the current one.
 */
module MasterBrowser {
  import opened Options
  import opened DappTypes

  /** `GameViewType`, an `Int` enum with raw values 0, 1, 2. */
  datatype GameViewType = Ryb | Dice | Guess

  function RawValue(t: GameViewType): (r: int)
    ensures 0 <= r <= 2
  {
    match t
    case Ryb => 0
    case Dice => 1
    case Guess => 2
  }

  /** `GameViewType(rawValue:)`: defined exactly on the three raw values. */
  function FromRawValue(raw: int): (r: Option<GameViewType>)
    ensures r.Some? <==> 0 <= raw <= 2
    ensures r.Some? ==> RawValue(r.value) == raw
  {
    if raw == 0 then Some(Ryb) else if raw == 1 then Some(Dice) else if raw == 2 then Some(Guess) else None
  }

  lemma RawValueRoundTrip(t: GameViewType)
    ensures FromRawValue(RawValue(t)) == Some(t)
  {
  }

  /** `BrowserToolbarAction`, what the container reports to its delegate. */
  datatype BrowserToolbarAction = View(viewType: GameViewType)

  /** A browser tab (`BrowserViewController`): its start page and the network it signs for. */
  datatype BrowserView = BrowserView(homeURL: string, server: RPCServer)

  datatype MasterState = MasterState(
    ryb: BrowserView,
    dice: BrowserView,
    guess: BrowserView,
    selectedIndex: int,
    current: GameViewType,
    children: set<GameViewType>)

  function ViewOf(m: MasterState, t: GameViewType): BrowserView {
    match t
    case Ryb => m.ryb
    case Dice => m.dice
    case Guess => m.guess
  }

  /** `currentViewController`. */
  function CurrentView(m: MasterState): BrowserView {
    ViewOf(m, m.current)
  }

  /** The tab a segment index stands for: its `GameViewType`, with every other index meaning guess. */
  function TabForIndex(index: int): GameViewType {
    FromRawValue(index).GetOr(Guess)
  }

  /** The shown tab is the selected one, and it is the only attached child. */
  predicate InSync(m: MasterState) {
    m.current == TabForIndex(m.selectedIndex) && m.children == {m.current}
  }

  predicate SameTabs(a: MasterState, b: MasterState) {
    a.ryb == b.ryb && a.dice == b.dice && a.guess == b.guess
  }

  /**
   * `init`: records the requested type in the segmented control, but the
   * current tab is RYB and nothing is attached until the view loads.
   */
  function Init(ryb: BrowserView, dice: BrowserView, guess: BrowserView, viewType: GameViewType): (r: MasterState)
    ensures r.selectedIndex == RawValue(viewType)
    ensures r.current == Ryb && r.children == {}
    ensures !InSync(r)
  {
    MasterState(ryb, dice, guess, RawValue(viewType), Ryb, {})
  }

  /** Detaching two tabs and attaching the third leaves only the third attached. */
  lemma OnlyShownAttached(children: set<GameViewType>, shown: GameViewType, hidden1: GameViewType, hidden2: GameViewType)
    requires shown != hidden1 && shown != hidden2 && hidden1 != hidden2
    ensures children - {hidden1} - {hidden2} + {shown} == {shown}
  {
    forall t | t in children - {hidden1} - {hidden2}
      ensures t == shown
    {
      assert t.Ryb? || t.Dice? || t.Guess?;
    }
  }

  /** `updateView`: attach the selected tab, detach the other two, make it current. */
  function UpdateView(m: MasterState): (r: MasterState)
    ensures InSync(r)
    ensures r.selectedIndex == m.selectedIndex && SameTabs(r, m)
  {
    if m.selectedIndex == RawValue(Ryb) then
      OnlyShownAttached(m.children, Ryb, Guess, Dice);
      m.(children := m.children - {Guess} - {Dice} + {Ryb}, current := Ryb)
    else if m.selectedIndex == RawValue(Dice) then
      OnlyShownAttached(m.children, Dice, Guess, Ryb);
      m.(children := m.children - {Guess} - {Ryb} + {Dice}, current := Dice)
    else
      OnlyShownAttached(m.children, Guess, Ryb, Dice);
      m.(children := m.children - {Ryb} - {Dice} + {Guess}, current := Guess)
  }

  /** `viewDidLoad` / `setupView`: lays out the toolbar, then `updateView`. */
  function ViewDidLoad(m: MasterState): (r: MasterState)
    ensures InSync(r) && r.selectedIndex == m.selectedIndex && SameTabs(r, m)
  {
    UpdateView(m)
  }

  /** `select(viewType:)`: afterwards the requested tab is the one shown. */
  function Select(m: MasterState, viewType: GameViewType): (r: MasterState)
    ensures r.current == viewType && r.selectedIndex == RawValue(viewType)
    ensures InSync(r) && SameTabs(r, m)
  {
    UpdateView(m.(selectedIndex := RawValue(viewType)))
  }

  datatype Selection = Selection(state: MasterState, notification: Option<BrowserToolbarAction>)

  /**
   * `selectionDidChange`: the user picked segment `index`. The view is always
   * updated; the delegate hears `.view(t)` only when `index` is a `GameViewType`.
   */
  function SelectionDidChange(m: MasterState, index: int): (r: Selection)
    ensures InSync(r.state) && r.state.selectedIndex == index && SameTabs(r.state, m)
    ensures r.notification.Some? <==> 0 <= index <= 2
    ensures r.notification.Some? ==> r.notification.value == View(r.state.current)
  {
    var state := UpdateView(m.(selectedIndex := index));
    match FromRawValue(index)
    case None => Selection(state, None)
    case Some(t) => Selection(state, Some(View(t)))
  }

  /** Index 0 shows RYB, index 1 dice, and every other index, valid or not, guess. */
  lemma UpdateViewByIndex(m: MasterState)
    ensures UpdateView(m).current == (if m.selectedIndex == 0 then Ryb else if m.selectedIndex == 1 then Dice else Guess)
  {
  }

  /** Exactly one tab is attached after `updateView`, and it is the current one. */
  lemma UpdateViewAttachesOne(m: MasterState, t: GameViewType)
    ensures t in UpdateView(m).children <==> t == UpdateView(m).current
  {
  }

  /** The container agrees with the requested type only once its view has loaded. */
  lemma InitSyncsOnLoad(ryb: BrowserView, dice: BrowserView, guess: BrowserView, viewType: GameViewType)
    ensures ViewDidLoad(Init(ryb, dice, guess, viewType)).current == viewType
    ensures Init(ryb, dice, guess, viewType).current == viewType <==> viewType == Ryb
  {
  }
}
