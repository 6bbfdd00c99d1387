/** The transient notification banner both screens render inside a modal:
    a message (`errorTotais`), a visibility flag (`showModal`) and a
    background colour (`modalColor`). Showing it schedules a 1500 ms timeout;
    the model replaces the clock by an explicit expiry event and counts the
    timeouts that are scheduled and have not fired yet. */
module Banner {

  const ErrorColor := "#FF0000"
  const SuccessColor := "#00A925"

  datatype BannerState = BannerState(message: string, visible: bool, color: string, pending: nat)

  /** A visible banner carries a message and a timer that will hide it; a
      hidden one carries no message. */
  ghost predicate Consistent(b: BannerState) {
    (b.visible ==> b.message != "" && b.pending > 0) && (!b.visible ==> b.message == "")
  }

  /** Both screens start with an empty, hidden, red banner and no timer. */
  function Hidden(): (b: BannerState)
    ensures Consistent(b) && !b.visible && b.color == ErrorColor && b.pending == 0
  {
    BannerState("", false, ErrorColor, 0)
  }

  /** The show-and-hide helpers: set message, visibility and colour, and
      schedule one more dismissal. The result is consistent exactly when the
      message is non-empty: an empty message would leave a visible banner
      with nothing in it. */
  function Raise(b: BannerState, message: string, color: string): (r: BannerState)
    ensures Consistent(r) <==> message != ""
    ensures r.visible && r.message == message && r.color == color
    ensures r.pending == b.pending + 1
  {
    BannerState(message, true, color, b.pending + 1)
  }

  /** A scheduled dismissal (1500 ms after it was scheduled) fires: hide and
      clear the message. The colour is not touched, and no check is made of
      which call scheduled the timer, so any expiry restores consistency. */
  function Expire(b: BannerState): (r: BannerState)
    requires b.pending > 0
    ensures Consistent(r) && !r.visible && r.message == ""
    ensures r.color == b.color && r.pending == b.pending - 1
  {
    b.(visible := false, message := "", pending := b.pending - 1)
  }

  /** The timer of an earlier call also clears a later message: after two
      raises and one expiry the banner is hidden although the timer of the
      second raise is still pending. */
  lemma StaleTimerClearsNewerMessage(b: BannerState, first: string, second: string, color1: string, color2: string)
    ensures var after := Expire(Raise(Raise(b, first, color1), second, color2));
            !after.visible && after.message == "" && after.color == color2 && after.pending == b.pending + 1
  {
  }
}
