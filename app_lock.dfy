/**
 * The app-lock state machine. The outcome of the device-owner
 * authentication prompt and the current instant are parameters.
 */
module AppLock {
  import opened Wrappers
  import opened FieldValues

  /** What asking for device-owner authentication can come back with. */
  datatype AuthOutcome =
    | PolicyUnavailable   // `canEvaluatePolicy` says no
    | Granted(at: Date)   // `evaluatePolicy` succeeded; the instant it returned
    | Denied              // `evaluatePolicy` returned false
    | Failed              // `evaluatePolicy` threw

  /** Every stored property of the store, as one value. */
  datatype LockState = LockState(
    isUnlocked: bool,
    isEnabled: bool,
    gracePeriodSeconds: real,
    lastUnlockDate: Option<Date>,
    requiresUnlock: bool)

  /** A freshly created store: enabled, locked, no grace, never unlocked. */
  const Initial := LockState(false, true, 0.0, None, true)

  /** `isLocked` of a store in state `s`: the app is shut out. */
  predicate LockedOut(s: LockState) {
    s.isEnabled && !s.isUnlocked
  }

  /** `lock()` and `markBackgrounded()`. */
  function Locked(s: LockState): LockState {
    s.(requiresUnlock := true, isUnlocked := false)
  }

  /** `unlock()` for a given authentication outcome. */
  function Unlocked(s: LockState, outcome: AuthOutcome): LockState {
    match outcome
    case PolicyUnavailable => s.(isUnlocked := true)
    case Granted(at) => s.(isUnlocked := true, lastUnlockDate := Some(at), requiresUnlock := false)
    case Denied => s.(isUnlocked := false)
    case Failed => s.(isUnlocked := false)
  }

  /** The last successful unlock is at most the grace period before `now`. */
  predicate WithinGrace(s: LockState, now: Date) {
    s.lastUnlockDate.Some? && now - s.lastUnlockDate.value <= s.gracePeriodSeconds
  }

  /** `unlockIfNeeded()` at instant `now`, with `outcome` if it comes to prompting. */
  function UnlockedIfNeeded(s: LockState, now: Date, outcome: AuthOutcome): LockState {
    if !s.isEnabled then s.(isUnlocked := true)
    else if !s.requiresUnlock && s.isUnlocked then s
    else if WithinGrace(s, now) then s.(isUnlocked := true)
    else Unlocked(s, outcome)
  }

  /** Whether `unlockIfNeeded()` shows the authentication prompt. */
  predicate Prompts(s: LockState, now: Date) {
    s.isEnabled && (s.requiresUnlock || !s.isUnlocked) && !WithinGrace(s, now)
  }

  class AppLockStore {
    var isUnlocked: bool
    var isEnabled: bool
    var gracePeriodSeconds: real
    var lastUnlockDate: Option<Date>
    var requiresUnlock: bool

    function State(): LockState
      reads this
    {
      LockState(isUnlocked, isEnabled, gracePeriodSeconds, lastUnlockDate, requiresUnlock)
    }

    constructor ()
      ensures State() == Initial
    {
      isUnlocked := false;
      isEnabled := true;
      gracePeriodSeconds := 0.0;
      lastUnlockDate := None;
      requiresUnlock := true;
    }

    predicate IsLocked()
      reads this
      ensures IsLocked() == LockedOut(State())
    {
      isEnabled && !isUnlocked
    }

    method Lock()
      modifies this
      ensures State() == Locked(old(State()))
    {
      requiresUnlock := true;
      isUnlocked := false;
    }

    method MarkBackgrounded()
      modifies this
      ensures State() == Locked(old(State()))
    {
      requiresUnlock := true;
      isUnlocked := false;
    }

    method Unlock(outcome: AuthOutcome)
      modifies this
      ensures State() == Unlocked(old(State()), outcome)
    {
      if outcome.PolicyUnavailable? {
        isUnlocked := true;
        return;
      }
      if outcome.Failed? {
        isUnlocked := false;
        return;
      }
      var success := outcome.Granted?;
      isUnlocked := success;
      if success {
        lastUnlockDate := Some(outcome.at);
        requiresUnlock := false;
      }
    }

    method UnlockIfNeeded(now: Date, outcome: AuthOutcome)
      modifies this
      ensures State() == UnlockedIfNeeded(old(State()), now, outcome)
    {
      if !isEnabled {
        isUnlocked := true;
        return;
      }
      if !(requiresUnlock || !isUnlocked) {
        return;
      }
      if lastUnlockDate.Some? {
        var elapsed := now - lastUnlockDate.value;
        if elapsed <= gracePeriodSeconds {
          isUnlocked := true;
          return;
        }
      }
      Unlock(outcome);
    }
  }

  /** A new store is locked, and its first `unlockIfNeeded()` prompts. */
  lemma InitiallyLocked(now: Date, o: AuthOutcome)
    ensures LockedOut(Initial)
    ensures Prompts(Initial, now)
    ensures UnlockedIfNeeded(Initial, now, o) == Unlocked(Initial, o)
  {
  }

  /** After `lock()` the store is locked exactly when the lock is enabled, and it will need unlocking again. */
  lemma LockedMeaning(s: LockState)
    ensures LockedOut(Locked(s)) <==> s.isEnabled
    ensures Locked(s).requiresUnlock
    ensures Locked(s).lastUnlockDate == s.lastUnlockDate
  {
  }

  /** With the lock disabled, `unlockIfNeeded()` unlocks without prompting. */
  lemma DisabledOpens(s: LockState, now: Date, o: AuthOutcome)
    requires !s.isEnabled
    ensures !Prompts(s, now)
    ensures UnlockedIfNeeded(s, now, o).isUnlocked && !LockedOut(UnlockedIfNeeded(s, now, o))
  {
  }

  /** An unlocked store that does not require unlocking is left exactly as it is. */
  lemma SettledUnchanged(s: LockState, now: Date, o: AuthOutcome)
    requires s.isEnabled && s.isUnlocked && !s.requiresUnlock
    ensures UnlockedIfNeeded(s, now, o) == s
  {
  }

  /** Within the grace period the store unlocks without prompting and still requires unlocking later. */
  lemma GraceOpens(s: LockState, now: Date, o: AuthOutcome)
    requires s.isEnabled && (s.requiresUnlock || !s.isUnlocked) && WithinGrace(s, now)
    ensures !Prompts(s, now)
    ensures UnlockedIfNeeded(s, now, o) == s.(isUnlocked := true)
  {
  }

  /** When the prompt is shown, the outcome alone decides. */
  lemma PromptDecides(s: LockState, now: Date, o: AuthOutcome)
    requires Prompts(s, now)
    ensures UnlockedIfNeeded(s, now, o) == Unlocked(s, o)
  {
  }

  /** Without a usable policy, `unlock()` fails open and changes nothing else. */
  lemma UnavailableFailsOpen(s: LockState)
    ensures Unlocked(s, PolicyUnavailable) == s.(isUnlocked := true)
  {
  }

  /** A granted prompt unlocks, stamps its instant and clears the requirement; a denied or failed one locks and changes nothing else. */
  lemma OutcomeEffects(s: LockState, o: AuthOutcome)
    ensures o.Granted? ==> Unlocked(s, o).isUnlocked && Unlocked(s, o).lastUnlockDate == Some(o.at) && !Unlocked(s, o).requiresUnlock
    ensures o.Denied? || o.Failed? ==> Unlocked(s, o) == s.(isUnlocked := false)
  {
  }

  /** `unlockIfNeeded()` leaves the store unlocked exactly when the lock is off, it was settled, the grace period covers `now`, or the outcome lets it in. */
  lemma UnlockedIff(s: LockState, now: Date, o: AuthOutcome)
    ensures UnlockedIfNeeded(s, now, o).isUnlocked
            <==> !s.isEnabled || (s.isUnlocked && !s.requiresUnlock) || WithinGrace(s, now)
                 || o.PolicyUnavailable? || o.Granted?
  {
  }

  /** Only a granted prompt moves `lastUnlockDate` or clears `requiresUnlock`. */
  lemma OnlyGrantStamps(s: LockState, now: Date, o: AuthOutcome)
    requires !o.Granted?
    ensures UnlockedIfNeeded(s, now, o).lastUnlockDate == s.lastUnlockDate
    ensures UnlockedIfNeeded(s, now, o).requiresUnlock == s.requiresUnlock
  {
  }

  /** After a granted prompt and a return to the background, coming back within the grace period needs no prompt. */
  lemma RelockWithinGrace(s: LockState, t: Date, now: Date, o: AuthOutcome)
    requires s.isEnabled && now - t <= s.gracePeriodSeconds
    ensures !Prompts(Locked(Unlocked(s, Granted(t))), now)
    ensures UnlockedIfNeeded(Locked(Unlocked(s, Granted(t))), now, o).isUnlocked
  {
  }

  /** Once a prompt on the enabled store is granted, `unlockIfNeeded()` at any later instant changes nothing. */
  lemma GrantedThenSettled(s: LockState, t: Date, now: Date, o: AuthOutcome)
    requires s.isEnabled
    ensures UnlockedIfNeeded(Unlocked(s, Granted(t)), now, o) == Unlocked(s, Granted(t))
  {
  }
}
