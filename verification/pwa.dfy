/**
 * Install-prompt gating of src/lib/pwa.ts: the held `beforeinstallprompt` event, the persisted
 * prompt state `{dismissed, dismissedAt, shownCount}` under the key `vesper_install_prompt`, the
 * decision whether to offer installation, and the per-platform install instructions.
 *
 * Platform detection (user agent, display mode), the clock and the user's answer to the browser
 * prompt are inputs.
 */
module Pwa {
  import opened Wrappers

  datatype PromptState = PromptState(dismissed: bool, dismissedAt: Option<int>, shownCount: int)

  const DefaultPromptState: PromptState := PromptState(false, None, 0)

  /** A `Partial<InstallPromptState>`. */
  datatype PromptPatch = PromptPatch(dismissed: Patch<bool>, dismissedAt: Patch<Option<int>>, shownCount: Patch<int>)

  /** What `localStorage.getItem('vesper_install_prompt')` yields: nothing (or ""), text that fails to parse or to be read, or a state. */
  datatype PromptSlot = Missing | Unreadable | Stored(state: PromptState)

  /** Milliseconds in a day: `1000 * 60 * 60 * 24`. */
  const DayMs: int := 1000 * 60 * 60 * 24

  /** Days after a dismissal during which the prompt stays hidden. */
  const DismissalDays: int := 30

  /** Times the prompt may be shown at most. */
  const MaxShown: int := 3

  /** `{ ...current, ...patch }` (setInstallPromptState): fields the patch does not carry keep their values. */
  function MergePromptState(current: PromptState, patch: PromptPatch): (r: PromptState)
    ensures patch.dismissed.Keep? ==> r.dismissed == current.dismissed
    ensures patch.dismissedAt.Keep? ==> r.dismissedAt == current.dismissedAt
    ensures patch.shownCount.Keep? ==> r.shownCount == current.shownCount
    ensures patch.dismissed.Put? ==> r.dismissed == patch.dismissed.value
    ensures patch.dismissedAt.Put? ==> r.dismissedAt == patch.dismissedAt.value
    ensures patch.shownCount.Put? ==> r.shownCount == patch.shownCount.value
  {
    PromptState(
      Patched(current.dismissed, patch.dismissed),
      Patched(current.dismissedAt, patch.dismissedAt),
      Patched(current.shownCount, patch.shownCount))
  }

  /**
   * A dismissal hides the prompt: it was dismissed, its time is truthy (present and not 0), and
   * fewer than 30 days have passed since, in milliseconds: `(now - at) / DayMs < 30`.
   */
  predicate SuppressedByDismissal(state: PromptState, now: int) {
    && state.dismissed
    && state.dismissedAt.Some? && state.dismissedAt.value != 0
    && now - state.dismissedAt.value < DismissalDays * DayMs
  }

  /**
   * shouldShowInstallPrompt on the detected display mode, whether a prompt event is held, the
   * stored state and the current time: never in standalone mode, never without a held prompt,
   * never after three showings or inside a dismissal window, and otherwise always.
   */
  function ShouldShow(standalone: bool, promptHeld: bool, state: PromptState, now: int): (show: bool)
    ensures standalone ==> !show
    ensures !promptHeld ==> !show
    ensures state.shownCount >= MaxShown ==> !show
    ensures SuppressedByDismissal(state, now) ==> !show
    ensures !standalone && promptHeld && state.shownCount < MaxShown && !SuppressedByDismissal(state, now) ==> show
  {
    if standalone then false
    else if !promptHeld then false
    else if state.dismissed && state.dismissedAt.Some? && state.dismissedAt.value != 0
            && now - state.dismissedAt.value < DismissalDays * DayMs then false
    else if state.shownCount >= MaxShown then false
    else true
  }

  /**
   * A dismissal stamped at a non-zero time hides the prompt for exactly the 30 days that follow it:
   * before that it is hidden, from then on only the other checks decide.
   */
  lemma DismissalWindow(state: PromptState, now: int)
    requires state.dismissed && state.dismissedAt.Some? && state.dismissedAt.value != 0
    ensures now - state.dismissedAt.value < DismissalDays * DayMs ==> !ShouldShow(false, true, state, now)
    ensures now - state.dismissedAt.value >= DismissalDays * DayMs ==>
              ShouldShow(false, true, state, now) == (state.shownCount < MaxShown)
  {
  }

  /** A dismissal without a time (null, or the falsy 0) does not hide the prompt. */
  lemma UntimedDismissalDoesNotSuppress(state: PromptState, now: int)
    requires state.dismissedAt.None? || state.dismissedAt == Some(0)
    ensures ShouldShow(false, true, state, now) == (state.shownCount < MaxShown)
  {
  }

  datatype Platform = Ios | Android | Desktop | Unknown

  datatype InstallInstructions = InstallInstructions(platform: Platform, canAutoPrompt: bool, instructions: seq<string>)

  /**
   * getInstallInstructions on the detected platform and prompt availability: iOS first, then
   * Android, then desktop only when a prompt is held, else unknown with no instructions;
   * automatic prompting is possible exactly off iOS and off unknown platforms.
   */
  function InstallInstructionsFor(isIos: bool, isAndroid: bool, promptAvailable: bool): (r: InstallInstructions)
    ensures isIos ==> r.platform == Ios
    ensures !isIos && isAndroid ==> r.platform == Android
    ensures !isIos && !isAndroid && promptAvailable ==> r.platform == Desktop
    ensures !isIos && !isAndroid && !promptAvailable ==> r.platform == Unknown
    ensures r.canAutoPrompt <==> r.platform != Ios && r.platform != Unknown
    ensures r.instructions == [] <==> r.platform == Unknown
  {
    if isIos then
      InstallInstructions(Ios, false, [
        "Tap the Share button",
        "Scroll down and tap \"Add to Home Screen\"",
        "Tap \"Add\" to install Vesper"])
    else if isAndroid then
      InstallInstructions(Android, true, [
        // the source's text holds the menu glyph as mis-decoded bytes
        "Tap the menu button (\U{00E2}\U{2039}\U{00AE})",
        "Tap \"Install app\" or \"Add to Home screen\"",
        "Follow the prompts to install"])
    else if promptAvailable then
      InstallInstructions(Desktop, true, [
        "Click the install button in your browser's address bar",
        "Or use the prompt to install Vesper"])
    else
      InstallInstructions(Unknown, false, [])
  }

  /** The user's answer to the browser's install prompt. */
  datatype Choice = Accepted | Dismissed

  datatype ShowResult = ShowAccepted | ShowDismissed | ShowUnavailable

  /**
   * The install-prompt state of one page: whether a `beforeinstallprompt` event is held, the
   * stored prompt state, whether a `window` exists (false during server rendering) and whether
   * `localStorage.setItem` succeeds.
   */
  class InstallPrompt {
    var deferredPrompt: bool
    var stored: PromptSlot
    const hasWindow: bool
    const writable: bool

    constructor (stored: PromptSlot, hasWindow: bool, writable: bool)
      ensures !deferredPrompt && this.stored == stored
      ensures this.hasWindow == hasWindow && this.writable == writable
    {
      deferredPrompt := false;
      this.stored := stored;
      this.hasWindow := hasWindow;
      this.writable := writable;
    }

    /** The `beforeinstallprompt` listener registered by setupInstallPrompt: the event is held. */
    method OnBeforeInstallPrompt()
      modifies this`deferredPrompt
      ensures deferredPrompt
    {
      deferredPrompt := true;
    }

    /** The `appinstalled` listener registered by setupInstallPrompt: the held event is dropped. */
    method OnAppInstalled()
      modifies this`deferredPrompt
      ensures !deferredPrompt
    {
      deferredPrompt := false;
    }

    /** isInstallPromptAvailable. */
    function IsInstallPromptAvailable(): (available: bool)
      reads this
      ensures available <==> deferredPrompt
    {
      deferredPrompt
    }

    /**
     * showInstallPrompt; `choice` is the user's answer, None when prompt() or userChoice rejects.
     * Without a held event it reports unavailable; an answer drops the held event and is
     * reported; a rejection reports unavailable and keeps the event.
     */
    method ShowInstallPrompt(choice: Option<Choice>) returns (r: ShowResult)
      modifies this`deferredPrompt
      ensures !old(deferredPrompt) ==> r == ShowUnavailable && !deferredPrompt
      ensures old(deferredPrompt) && choice.None? ==> r == ShowUnavailable && deferredPrompt
      ensures old(deferredPrompt) && choice == Some(Accepted) ==> r == ShowAccepted && !deferredPrompt
      ensures old(deferredPrompt) && choice == Some(Dismissed) ==> r == ShowDismissed && !deferredPrompt
    {
      if !deferredPrompt {
        return ShowUnavailable;
      }
      match choice
      case None =>
        return ShowUnavailable;
      case Some(outcome) =>
        deferredPrompt := false;
        r := if outcome == Accepted then ShowAccepted else ShowDismissed;
    }

    /**
     * getInstallPromptState: the stored state, or `{dismissed: false, dismissedAt: null,
     * shownCount: 0}` when there is no window, nothing stored or nothing readable.
     */
    function GetInstallPromptState(): (s: PromptState)
      reads this
      ensures hasWindow && stored.Stored? ==> s == stored.state
      ensures !hasWindow || !stored.Stored? ==> s == DefaultPromptState
    {
      if hasWindow && stored.Stored? then stored.state else DefaultPromptState
    }

    /** setInstallPromptState: the current state merged with the patch is stored, when a window exists and the write succeeds. */
    method SetInstallPromptState(patch: PromptPatch)
      modifies this`stored
      ensures hasWindow && writable ==> stored == Stored(MergePromptState(old(GetInstallPromptState()), patch))
      ensures !(hasWindow && writable) ==> stored == old(stored)
    {
      if !hasWindow {
        return;
      }
      var current := GetInstallPromptState();
      var updated := MergePromptState(current, patch);
      if writable {
        stored := Stored(updated);
      }
    }

    /** shouldShowInstallPrompt; `standalone` is isStandalone() and `now` is Date.now(). */
    method ShouldShowInstallPrompt(standalone: bool, now: int) returns (show: bool)
      ensures show == ShouldShow(standalone, deferredPrompt, GetInstallPromptState(), now)
    {
      return ShouldShow(standalone, IsInstallPromptAvailable(), GetInstallPromptState(), now);
    }

    /** getInstallInstructions; `isIos` and `isAndroid` are isIOS() and isAndroid(). */
    method GetInstallInstructions(isIos: bool, isAndroid: bool) returns (r: InstallInstructions)
      ensures r == InstallInstructionsFor(isIos, isAndroid, deferredPrompt)
      ensures r.canAutoPrompt <==> !isIos && (isAndroid || deferredPrompt)
    {
      return InstallInstructionsFor(isIos, isAndroid, IsInstallPromptAvailable());
    }

    /** dismissInstallPrompt: dismissed, stamped with `now`, the showing count left as it was. */
    method DismissInstallPrompt(now: int)
      modifies this`stored
      ensures hasWindow && writable ==>
                GetInstallPromptState() == old(GetInstallPromptState()).(dismissed := true, dismissedAt := Some(now))
      ensures !(hasWindow && writable) ==> stored == old(stored)
    {
      SetInstallPromptState(PromptPatch(Put(true), Put(Some(now)), Keep));
    }

    /** incrementInstallPromptShown: the showing count goes up by exactly one, the dismissal is left as it was. */
    method IncrementInstallPromptShown()
      modifies this`stored
      ensures hasWindow && writable ==>
                GetInstallPromptState() == old(GetInstallPromptState()).(shownCount := old(GetInstallPromptState()).shownCount + 1)
      ensures !(hasWindow && writable) ==> stored == old(stored)
    {
      var state := GetInstallPromptState();
      SetInstallPromptState(PromptPatch(Keep, Keep, Put(state.shownCount + 1)));
    }
  }

  /** The state after a dismissal at `now`. */
  function DismissedAt(s: PromptState, now: int): PromptState {
    MergePromptState(s, PromptPatch(Put(true), Put(Some(now)), Keep))
  }

  /** The state after one more showing. */
  function ShownOnceMore(s: PromptState): PromptState {
    MergePromptState(s, PromptPatch(Keep, Keep, Put(s.shownCount + 1)))
  }

  /**
   * Three showings from the initial state exhaust the prompt: it is never offered again,
   * whatever the time, and dismissing afterwards does not bring it back.
   */
  lemma ThreeShowingsExhaust(now: int, later: int)
    ensures var s := ShownOnceMore(ShownOnceMore(ShownOnceMore(DefaultPromptState)));
            !ShouldShow(false, true, s, later) && !ShouldShow(false, true, DismissedAt(s, now), later)
  {
  }

  /** A dismissal at a non-zero time hides the prompt for the whole next 30 days. */
  lemma DismissalHidesForThirtyDays(s: PromptState, now: int, later: int)
    requires now != 0 && now <= later < now + DismissalDays * DayMs
    ensures !ShouldShow(false, true, DismissedAt(s, now), later)
  {
  }
}
