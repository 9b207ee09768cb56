/** The sign-in dialog: a mode machine over login, signup and onboarding,
    driven by the form's submit and the login/signup toggle. Whether the
    dialog is open belongs to the navigation bar that shows it: `isOpen` is
    the bar's `authModalOpen` and `onClose` is the bar's `CloseAuthModal`. */
module AuthModal {
  import opened Common
  import opened AuthContext
  import opened Navigation

  datatype Mode = LoginMode | SignupMode | Onboarding

  datatype FormData = FormData(
    username: string,
    email: string,
    password: string,
    confirmPassword: string,
    favoritePlayer: string,
    favoriteMemory: string)

  const EmptyForm: FormData := FormData("", "", "", "", "", "")

  /** The mode the dialog starts in: `initialMode`, which defaults to login. */
  function StartMode(initialMode: Option<Mode>): (mode: Mode)
    requires initialMode != Some(Onboarding)
    ensures mode != Onboarding
    ensures initialMode.None? ==> mode == LoginMode
    ensures initialMode.Some? ==> mode == initialMode.value
  {
    if initialMode.Some? then initialMode.value else LoginMode
  }

  /** The dialog's state. */
  class Modal {
    /** The navigation bar that shows the dialog. */
    const host: Bar
    const session: Session
    var mode: Mode
    var form: FormData
    var isLoading: bool

    /** `initialMode` is `'login' | 'signup'` or left out. The dialog signs
        in through the same session as the bar that shows it. The bar passes
        `login`, so it always opens in login mode; a dialog starting
        in signup mode stands for the one the guest banner shows, whose own
        host is not part of this model. */
    constructor (host: Bar, initialMode: Option<Mode>)
      requires initialMode != Some(Onboarding)
      ensures this.host == host && session == host.session
      ensures mode == StartMode(initialMode) && form == EmptyForm && !isLoading
    {
      this.host := host;
      session := host.session;
      mode := StartMode(initialMode);
      form := EmptyForm;
      isLoading := false;
    }

    /** The inputs' `onChange` handlers. */
    method Edit(data: FormData)
      modifies this`form
      ensures form == data
    {
      form := data;
    }

    /** `handleSubmit`. In login mode it logs in and closes the dialog on
        success; in signup mode it signs up (whatever `confirmPassword`
        holds) and moves to onboarding on success. A failure keeps the mode
        and the dialog open; the error is logged, which is what `logged`
        returns, and not rethrown. Loading ends in every outcome. `id`,
        `createdAt` and `storageFails` are passed on to the session. */
    method HandleSubmit(id: string, createdAt: string, storageFails: bool) returns (logged: Option<AuthError>)
      modifies this`mode, this`isLoading, host`authModalOpen, session
      ensures !isLoading
      ensures old(mode) == LoginMode ==>
                && session.user == Some(MockUser(old(form).email))
                && mode == LoginMode
                && (if storageFails then logged == Some(LoginFailed) && host.authModalOpen == old(host.authModalOpen)
                    else logged == None && !host.authModalOpen)
      ensures old(mode) == SignupMode ==>
                && session.user == Some(NewUser(old(form).username, old(form).email, id, createdAt))
                && host.authModalOpen == old(host.authModalOpen)
                && (if storageFails then logged == Some(SignupFailed) && mode == SignupMode
                    else logged == None && mode == Onboarding)
      ensures old(mode) == Onboarding ==>
                logged == None && mode == Onboarding && host.authModalOpen == old(host.authModalOpen) && unchanged(session)
      ensures old(mode) != Onboarding ==>
                && !session.isLoading
                && session.stored == (if storageFails then old(session.stored) else session.user)
    {
      isLoading := true;
      logged := None;
      if mode == LoginMode {
        var outcome := session.Login(form.email, form.password, storageFails);
        if outcome.Pass? {
          host.CloseAuthModal();
        } else {
          logged := Some(outcome.error);
        }
      } else if mode == SignupMode {
        var outcome := session.Signup(form.username, form.email, form.password, id, createdAt, storageFails);
        if outcome.Pass? {
          mode := Onboarding;
        } else {
          logged := Some(outcome.error);
        }
      }
      isLoading := false;
    }

    /** The toggle under the form, which is only shown outside onboarding:
        login and signup swap. */
    method ToggleMode()
      requires mode != Onboarding
      modifies this`mode
      ensures mode == if old(mode) == LoginMode then SignupMode else LoginMode
    {
      mode := if mode == LoginMode then SignupMode else LoginMode;
    }

    /** `handleOnboardingComplete` and the dialog's own dismissal: the dialog
        closes and the mode stays what it was, onboarding included. */
    method Close()
      modifies host`authModalOpen
      ensures !host.authModalOpen
    {
      host.CloseAuthModal();
    }
  }
}
