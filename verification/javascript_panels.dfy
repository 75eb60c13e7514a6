/**
 * The page's `alert`, `confirm` and `prompt` dialogs. Each panel offers its
 * buttons; pressing one calls the page's completion handler once with a value
 * of the panel's answer type.
 */
module JavaScriptPanels {
  import opened Options

  datatype Panel =
    | AlertPanel(message: string)
    | ConfirmPanel(message: string)
    | TextInputPanel(prompt: string, defaultText: Option<string>)

  datatype Button = Ok | Cancel

  /** The values the three completion handlers take: `()`, `Bool` and `String?`. */
  datatype PanelAnswer = Acknowledged | Confirmed(ok: bool) | Text(text: Option<string>)

  /** The buttons each panel adds, in order. */
  function Buttons(panel: Panel): seq<Button> {
    match panel
    case AlertPanel(_) => [Ok]
    case ConfirmPanel(_) => [Ok, Cancel]
    case TextInputPanel(_, _) => [Ok, Cancel]
  }

  /** The answer has the type the panel's completion handler expects. */
  predicate AnswerFits(panel: Panel, answer: PanelAnswer) {
    match panel
    case AlertPanel(_) => answer.Acknowledged?
    case ConfirmPanel(_) => answer.Confirmed?
    case TextInputPanel(_, _) => answer.Text?
  }

  /** The text field of a prompt starts out holding `defaultText`. */
  function InitialFieldText(panel: Panel): Option<string>
    requires panel.TextInputPanel?
  {
    panel.defaultText
  }

  /**
   * The answer given when `pressed` is tapped while the prompt's field holds
   * `fieldText` (ignored by the other panels). A button the panel does not
   * offer gives no answer.
   */
  function Answer(panel: Panel, pressed: Button, fieldText: Option<string>): (r: Option<PanelAnswer>)
    ensures r.Some? <==> pressed in Buttons(panel)
    ensures r.Some? ==> AnswerFits(panel, r.value)
    ensures panel.ConfirmPanel? && r.Some? ==> (r.value.ok <==> pressed == Ok)
    ensures panel.TextInputPanel? && pressed == Cancel ==> r == Some(Text(None))
    ensures panel.TextInputPanel? && pressed == Ok ==>
      r == Some(Text(if fieldText.Some? then fieldText else panel.defaultText))
  {
    assert pressed == Ok ==> pressed == Buttons(panel)[0];
    match panel
    case AlertPanel(_) => if pressed == Ok then Some(Acknowledged) else None
    case ConfirmPanel(_) =>
      assert pressed == Buttons(panel)[if pressed == Ok then 0 else 1]; Some(Confirmed(pressed == Ok))
    case TextInputPanel(_, defaultText) =>
      assert pressed == Buttons(panel)[if pressed == Ok then 0 else 1];
      if pressed == Cancel then Some(Text(None))
      else match fieldText
        case Some(text) => Some(Text(Some(text)))
        case None => Some(Text(defaultText))
  }

  /** Confirming a prompt whose field was left as it started answers the default text. */
  lemma UntouchedPromptAnswersDefault(prompt: string, defaultText: Option<string>)
    ensures Answer(TextInputPanel(prompt, defaultText), Ok, InitialFieldText(TextInputPanel(prompt, defaultText)))
      == Some(Text(defaultText))
  {
  }
}
