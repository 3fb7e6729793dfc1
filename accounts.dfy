/**
 * The premium status of a user: the `is_premium` flag and the optional
 * `premium_expiry`, read by `is_premium_active`, which demotes an expired
 * user as a side effect, and set by a verified payment for 30 days.
 */
module Accounts {
  import opened Wrappers

  /** Times are whole seconds on one clock. */
  const SecondsPerDay: int := 24 * 60 * 60

  /** How long a verified payment keeps a user premium. */
  const PremiumPeriod: int := 30 * SecondsPerDay

  /** The two columns the status check reads and writes. */
  datatype PremiumState = PremiumState(isPremium: bool, premiumExpiry: Option<int>)

  /** The answer of one status check and the state it leaves behind. */
  datatype Checked = Checked(active: bool, state: PremiumState)

  /** A new account: not premium, no expiry. */
  const FreeState: PremiumState := PremiumState(false, None)

  /** `is_premium_active()` at time `now`, as a transition of the two columns. */
  function CheckPremium(s: PremiumState, now: int): (r: Checked)
    ensures r.active <==> s.isPremium && (s.premiumExpiry.None? || now <= s.premiumExpiry.value)
    ensures r.state.isPremium <==> r.active
    ensures r.active ==> r.state == s
  {
    if !s.isPremium then Checked(false, s)
    else if s.premiumExpiry.Some? && s.premiumExpiry.value < now then Checked(false, FreeState)
    else Checked(true, s)
  }

  /** The state a verified payment at time `verifiedAt` leaves. */
  function Upgraded(verifiedAt: int): PremiumState {
    PremiumState(true, Some(verifiedAt + PremiumPeriod))
  }

  /** The answers of successive checks at the given times, each starting from the state the previous one left. */
  function CheckAll(s: PremiumState, nows: seq<int>): (r: seq<bool>)
    ensures |r| == |nows|
    decreases |nows|
  {
    if nows == [] then []
    else
      var c := CheckPremium(s, nows[0]);
      [c.active] + CheckAll(c.state, nows[1..])
  }

  /** The check never makes a user premium, and an active answer changes nothing. */
  lemma CheckNeverPromotes(s: PremiumState, now: int)
    ensures CheckPremium(s, now).state.isPremium ==> s.isPremium
    ensures CheckPremium(s, now).active ==> CheckPremium(s, now).state == s
    ensures !CheckPremium(s, now).active ==> !CheckPremium(s, now).state.isPremium
  {
  }

  /** Checking twice at the same time answers and leaves the same as checking once. */
  lemma CheckIdempotent(s: PremiumState, now: int)
    ensures CheckPremium(CheckPremium(s, now).state, now) == CheckPremium(s, now)
  {
  }

  /** A user who is not premium stays so, whatever the times of the checks. */
  lemma {:induction false} NotPremiumStaysInactive(s: PremiumState, nows: seq<int>)
    requires !s.isPremium
    ensures forall k :: 0 <= k < |nows| ==> !CheckAll(s, nows)[k]
    decreases |nows|
  {
    if nows != [] {
      NotPremiumStaysInactive(CheckPremium(s, nows[0]).state, nows[1..]);
    }
  }

  /** Once a check has answered false, every later check answers false. */
  lemma {:induction false} OnceInactiveStaysInactive(s: PremiumState, nows: seq<int>, i: nat, j: nat)
    requires i <= j < |nows| && !CheckAll(s, nows)[i]
    ensures !CheckAll(s, nows)[j]
    decreases i
  {
    var c := CheckPremium(s, nows[0]);
    if i == 0 {
      CheckNeverPromotes(s, nows[0]);
      if j > 0 {
        NotPremiumStaysInactive(c.state, nows[1..]);
      }
    } else {
      OnceInactiveStaysInactive(c.state, nows[1..], i - 1, j - 1);
    }
  }

  /** After a payment verified at `t0`, a check answers true exactly up to and including `t0` plus 30 days. */
  lemma UpgradeWindow(t0: int, now: int)
    ensures CheckPremium(Upgraded(t0), now).active <==> now <= t0 + PremiumPeriod
  {
  }

  /** Checks at any times up to the expiry of a payment all answer true and leave the state as it was. */
  lemma {:induction false} ActiveThroughoutPeriod(t0: int, nows: seq<int>)
    requires forall k :: 0 <= k < |nows| ==> nows[k] <= t0 + PremiumPeriod
    ensures forall k :: 0 <= k < |nows| ==> CheckAll(Upgraded(t0), nows)[k]
    decreases |nows|
  {
    if nows != [] {
      ActiveThroughoutPeriod(t0, nows[1..]);
    }
  }

  /** The account fields the status check and the payment callback touch. */
  class User {
    var isPremium: bool
    var premiumExpiry: Option<int>

    /** The two columns as a value. */
    function State(): PremiumState
      reads this
    {
      PremiumState(isPremium, premiumExpiry)
    }

    /** A freshly registered user: not premium, no expiry. */
    constructor ()
      ensures State() == FreeState
    {
      isPremium := false;
      premiumExpiry := None;
    }

    /**
     * `is_premium_active()`: false for a user who is not premium; false, and
     * both columns cleared, for a premium user whose expiry is before `now`;
     * true, with nothing changed, otherwise (an expiry equal to `now` is
     * still active).
     */
    method IsPremiumActive(now: int) returns (active: bool)
      modifies this
      ensures Checked(active, State()) == CheckPremium(old(State()), now)
      ensures !old(isPremium) ==> !active && unchanged(this)
      ensures old(isPremium) && old(premiumExpiry).Some? && old(premiumExpiry).value < now ==>
        !active && !isPremium && premiumExpiry == None
      ensures old(isPremium) && (old(premiumExpiry).None? || now <= old(premiumExpiry).value) ==>
        active && unchanged(this)
    {
      if !isPremium {
        return false;
      }
      if premiumExpiry.Some? && premiumExpiry.value < now {
        isPremium := false;
        premiumExpiry := None;
        return false;
      }
      return true;
    }

    /** A verified payment at `verifiedAt`: premium for 30 days from then. */
    method GrantPremium(verifiedAt: int)
      modifies this
      ensures State() == Upgraded(verifiedAt)
      ensures isPremium && premiumExpiry == Some(verifiedAt + PremiumPeriod)
    {
      isPremium := true;
      premiumExpiry := Some(verifiedAt + PremiumPeriod);
    }
  }
}
