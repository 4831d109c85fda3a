/**
 * The values that cross a process boundary: the classification service's result
 * entries (`POST /check-headlines`) and the messages exchanged over the browser
 * runtime between the background script and the script injected into a page.
 */
module Api {
  import opened Wrappers

  /** An opaque resource URL (an icon or an image of the extension). */
  type Url = string

  /** The `icons` mapping the background script passes to the panel: status -> icon URL. */
  type Icons = map<string, Url>

  /**
   * A result's `probabilities` object: the two scores the panel reads (`None` when the
   * field is absent or zero-valued, which `|| 0` treats alike) and whether it has an
   * `error` field.
   */
  datatype Scores = Scores(misleading: Option<real>, verified: Option<real>, hasError: bool)

  /** One entry of the service's `results` array. */
  datatype ApiResult = ApiResult(headline: string, status: string, reason: string, probabilities: Option<Scores>)

  const ShowPanelType: string := "SHOW_MISINFO_PANEL"
  const FallbackType: string := "FALLBACK_NOTIFICATION"

  /** A runtime message, tagged by its `type` field. */
  datatype Message =
    | ShowPanel(headline: string, apiUrl: Url, icons: Icons, mgIcon: Url, mgTitleImg: Url)
    | FallbackNotification(title: string, message: string)
    | OtherMessage(kind: string)
  {
    /** The message's `type` field. */
    function Type(): string {
      match this
      case ShowPanel(_, _, _, _, _) => ShowPanelType
      case FallbackNotification(_, _) => FallbackType
      case OtherMessage(k) => k
    }

    /** The variant agrees with the `type` field: an `OtherMessage` carries neither known type. */
    predicate WellTagged() {
      OtherMessage? ==> kind != ShowPanelType && kind != FallbackType
    }
  }
}
