/** The lifecycle of one session: every critical section is a function on values. What a section leaves to
    be done outside the lock is its second result. */
module SessionModel {
  import opened Media
  import opened CloseInfos

  datatype Life = Connected | Handshaking | Active | Closing | Closed | Failed

  /** A close function is identified by a number; None is the nil function. */
  datatype Control = Control(
    life: Life, closeRequested: bool, closeInfo: CloseInfo,
    closeFn: Option<nat>, closeFnCalled: bool, doneOpen: bool, closedAt: Option<int>)

  const NEW_CONTROL := Control(Connected, false, BLANK, None, false, true, None)

  predicate Terminal(c: Control) {
    c.life == Closing || c.life == Closed || c.life == Failed
  }

  function BeginHandshake(c: Control): Control {
    if Terminal(c) then c else c.(life := Handshaking)
  }

  function MarkActive(c: Control): Control {
    if Terminal(c) then c else c.(life := Active)
  }

  /** The section of RequestClose; the second result is the close function to call after unlocking. */
  function RequestClose(c: Control, info: CloseInfo): (Control, Option<nat>) {
    var merged := if c.closeRequested then Merge(c.closeInfo, info) else Normalize(info);
    var life := if c.life == Closed then Closed else if merged.cause == Error then Failed else Closing;
    var calls := c.closeFn.Some? && !c.closeFnCalled;
    (c.(closeRequested := true, closeInfo := merged, life := life, closeFnCalled := c.closeFnCalled || calls),
     if calls then c.closeFn else None)
  }

  /** The section of BindCloseFunc. */
  function BindCloseFunc(c: Control, fn: Option<nat>): (Control, Option<nat>) {
    var calls := c.closeRequested && fn.Some? && !c.closeFnCalled;
    (c.(closeFn := fn, closeFnCalled := c.closeFnCalled || calls), if calls then fn else None)
  }

  /** The section of Finalize; the second result says whether the done channel is to be closed. */
  function Finalize(c: Control, fallback: CloseInfo, now: int): (Control, bool) {
    var info := if c.closeRequested then Merge(c.closeInfo, Normalize(fallback)) else Normalize(fallback);
    (c.(closeRequested := true, closeInfo := info,
        closedAt := if c.life == Closed then c.closedAt else Some(now),
        life := Closed, doneOpen := false),
     c.doneOpen)
  }

  predicate Visible(c: Control) {
    c.life == Connected || c.life == Handshaking || c.life == Active
  }

  /** What every section keeps. */
  predicate Sound(c: Control) {
    && (c.closeRequested <==> Terminal(c))
    && (c.life == Failed ==> c.closeInfo.cause == Error)
    && (c.life == Closing ==> c.closeInfo.cause != Error && c.closeInfo.cause != Unset)
    && (c.closeRequested ==> c.closeInfo.cause != Unset)
    && (!c.closeRequested ==> c.closeInfo == BLANK && !c.closeFnCalled)
    && (c.doneOpen <==> c.life != Closed)
    && (c.closedAt.Some? <==> c.life == Closed)
  }
}
