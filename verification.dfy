/**
 * The verification page (pages/Verification.tsx): the record update that
 * marks a user verified, and the two flags `verifying` and `sent` that the
 * page's buttons and their timers flip. Each timer is a pending callback
 * counted in the state and fired as its own step.
 */
module Verification {
  import opened Users

  /** The same user record, marked verified. */
  function Verified(u: User): User {
    u.(isVerified := true)
  }

  /** The verified record keeps every other field, is verified, and verifying it again changes nothing. */
  lemma VerifiedRecord(u: User)
    ensures Verified(u).isVerified
    ensures Verified(u).id == u.id && Verified(u).name == u.name
    ensures Verified(u).email == u.email && Verified(u).createdAt == u.createdAt
    ensures Verified(Verified(u)) == Verified(u)
    ensures u.isVerified ==> Verified(u) == u
  {
  }

  /**
   * The page's flags and the timers it has started: `verifies` callbacks of
   * `handleVerify` and `resends` callbacks of `resendEmail` still to fire.
   */
  datatype PageState = PageState(verifying: bool, sent: bool, verifies: nat, resends: nat)

  const Initial := PageState(false, true, 0, 0)

  /** `handleVerify`: the spinner starts and the callback is queued. */
  function Verify(s: PageState): PageState {
    s.(verifying := true, verifies := s.verifies + 1)
  }

  /** The verify timer fires: the spinner stops. */
  function VerifyFires(s: PageState): PageState
    requires s.verifies > 0
  {
    s.(verifying := false, verifies := s.verifies - 1)
  }

  /** `resendEmail`: the banner hides and the callback is queued. */
  function Resend(s: PageState): PageState {
    s.(sent := false, resends := s.resends + 1)
  }

  /** The resend timer fires: the banner shows again. */
  function ResendFires(s: PageState): PageState
    requires s.resends > 0
  {
    s.(sent := true, resends := s.resends - 1)
  }

  /** The spinner is on only with a verify callback to come, the banner off only with a resend callback to come. */
  predicate Settles(s: PageState) {
    && (s.verifying ==> s.verifies > 0)
    && (!s.sent ==> s.resends > 0)
  }

  /**
   * Every step keeps `Settles`: the spinner and the hidden banner are never
   * stuck, since a timer that will reset each is always still queued.
   */
  lemma StepsKeepSettles(s: PageState)
    requires Settles(s)
    ensures Settles(Verify(s)) && Settles(Resend(s))
    ensures s.verifies > 0 ==> Settles(VerifyFires(s))
    ensures s.resends > 0 ==> Settles(ResendFires(s))
  {
  }

  lemma InitialSettles()
    ensures Settles(Initial) && Initial.sent && !Initial.verifying
  {
  }

  /** `verifying` is on while the callback is pending and off once it has run; `sent` goes off and back on. */
  lemma FlagSequence(s: PageState)
    ensures Verify(s).verifying && !VerifyFires(Verify(s)).verifying
    ensures !Resend(s).sent && ResendFires(Resend(s)).sent
    ensures VerifyFires(Verify(s)).sent == s.sent && ResendFires(Resend(s)).verifying == s.verifying
  {
  }

  class VerificationPage {
    const user: User
    var verifying: bool
    var sent: bool
    var verifies: nat
    var resends: nat

    function State(): PageState
      reads this
    {
      PageState(verifying, sent, verifies, resends)
    }

    constructor(u: User)
      ensures user == u && State() == Initial
    {
      user := u;
      verifying := false;
      sent := true;
      verifies := 0;
      resends := 0;
    }

    /** The verify button is disabled while verifying. */
    method HandleVerify()
      requires !verifying
      modifies this
      ensures State() == Verify(old(State()))
    {
      verifying := true;
      verifies := verifies + 1;
    }

    /** The verify timer fires; `updated` is what it passes to `onVerified`. */
    method VerifyTimerFires() returns (updated: User)
      requires verifies > 0
      modifies this
      ensures State() == VerifyFires(old(State()))
      ensures updated == Verified(user)
    {
      updated := user.(isVerified := true);
      verifying := false;
      verifies := verifies - 1;
    }

    method ResendEmail()
      modifies this
      ensures State() == Resend(old(State()))
    {
      sent := false;
      resends := resends + 1;
    }

    method ResendTimerFires()
      requires resends > 0
      modifies this
      ensures State() == ResendFires(old(State()))
    {
      sent := true;
      resends := resends - 1;
    }
  }
}
