/**
 * The authentication dialog: it shows either the sign-in or the sign-up
 * form, can switch between them, and falls back to its default mode when
 * it is (re)opened or closed.
 */
module AuthModal {

  datatype Mode = SignIn | SignUp

  class Modal {
    const defaultMode: Mode
    var currentMode: Mode
    /** How many times the parent's `onClose` has been called. */
    var closeRequests: nat

    constructor(defaultMode: Mode)
      ensures this.defaultMode == defaultMode && currentMode == defaultMode && closeRequests == 0
    {
      this.defaultMode := defaultMode;
      currentMode := defaultMode;
      closeRequests := 0;
    }

    /** The effect on `isOpen`: opening the dialog resets it to the default mode. */
    method OpenChanged(isOpen: bool)
      modifies this
      ensures currentMode == if isOpen then defaultMode else old(currentMode)
      ensures closeRequests == old(closeRequests)
    {
      if isOpen {
        currentMode := defaultMode;
      }
    }

    method SwitchToRegister()
      modifies this
      ensures currentMode == SignUp && closeRequests == old(closeRequests)
    {
      currentMode := SignUp;
    }

    method SwitchToLogin()
      modifies this
      ensures currentMode == SignIn && closeRequests == old(closeRequests)
    {
      currentMode := SignIn;
    }

    /** Closing resets the mode and notifies the parent once. */
    method Close()
      modifies this
      ensures currentMode == defaultMode
      ensures closeRequests == old(closeRequests) + 1
    {
      currentMode := defaultMode;
      closeRequests := closeRequests + 1;
    }

    /** The dialog title follows the mode. */
    function Title(): (r: string)
      reads this
      ensures currentMode == SignIn ==> r == "Sign In"
      ensures currentMode == SignUp ==> r == "Create Account"
    {
      if currentMode == SignIn then "Sign In" else "Create Account"
    }
  }

  /**
   * Whatever the user switched to, closing and reopening the dialog shows
   * the default form again.
   */
  method CloseThenReopen(m: Modal)
    modifies m
    ensures m.currentMode == m.defaultMode
    ensures m.closeRequests == old(m.closeRequests) + 1
  {
    m.Close();
    m.OpenChanged(true);
  }
}
