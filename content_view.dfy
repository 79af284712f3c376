/**
  ContentView, the home screen: redeeming banked minutes typed into the
  "Use Banked Minutes" alert, the once-a-day emergency debt (which unlocks
  straight away here), the app picker, and the banked-unlock request that
  arrives from the shield.
 */
module Content {
  import opened Wrappers
  import opened SharedModel
  import opened Stats
  import opened Blocking

  const Int64Max := 0x7fff_ffff_ffff_ffff
  const Int64Min := -0x8000_0000_0000_0000

  predicate IsDigit(c: char)
  {
    '0' <= c <= '9'
  }

  predicate AllDigits(s: string)
  {
    forall i :: 0 <= i < |s| ==> IsDigit(s[i])
  }

  /** The value of a string of ASCII digits, most significant first. */
  function DigitsValue(s: string): nat
    requires AllDigits(s)
    decreases |s|
  {
    if s == [] then 0 else 10 * DigitsValue(s[..|s| - 1]) + (s[|s| - 1] as int - '0' as int)
  }

  /**
    Swift's `Int(String)`: an optional '+' or '-' followed by at least one
    ASCII digit and nothing else, whose value fits in 64 bits; anything else
    is nil.
   */
  function ParseInt(s: string): (r: Option<int>)
    ensures r.Some? ==> Int64Min <= r.value <= Int64Max
    ensures r.Some? ==> |s| > 0 && AllDigits(s[1..]) && (IsDigit(s[0]) || s[0] == '+' || s[0] == '-')
    ensures r.Some? && r.value > 0 ==> s[0] != '-'
  {
    if |s| > 0 && (s[0] == '+' || s[0] == '-') then
      var magnitude := s[1..];
      if |magnitude| > 0 && AllDigits(magnitude) then
        var v: int := if s[0] == '-' then -(DigitsValue(magnitude) as int) else DigitsValue(magnitude);
        if Int64Min <= v <= Int64Max then Some(v) else None
      else None
    else if |s| > 0 && AllDigits(s) && DigitsValue(s) <= Int64Max then Some(DigitsValue(s))
    else None
  }

  /** The decimal rendering of a natural number, the inverse partner of `ParseInt`. */
  function Decimal(n: nat): (s: string)
    ensures |s| > 0 && AllDigits(s)
  {
    var last := (('0' as int) + n % 10) as char;
    if n < 10 then [last] else Decimal(n / 10) + [last]
  }

  lemma {:induction false} DecimalValue(n: nat)
    ensures DigitsValue(Decimal(n)) == n
  {
    var s := Decimal(n);
    if n >= 10 {
      DecimalValue(n / 10);
      assert s[..|s| - 1] == Decimal(n / 10);
    }
  }

  /** Every 64-bit magnitude typed in decimal, with or without a sign, parses back to itself. */
  lemma ParseDecimal(n: nat)
    requires n <= Int64Max
    ensures ParseInt(Decimal(n)) == Some(n)
    ensures ParseInt(['+'] + Decimal(n)) == Some(n)
    ensures ParseInt(['-'] + Decimal(n)) == Some(-(n as int))
  {
    DecimalValue(n);
    assert (['+'] + Decimal(n))[1..] == Decimal(n);
    assert (['-'] + Decimal(n))[1..] == Decimal(n);
  }

  /** Empty text, a bare sign and surrounding spaces are all rejected. */
  lemma ParseRejects()
    ensures ParseInt("") == None && ParseInt("+") == None && ParseInt("-") == None
    ensures ParseInt(" 5") == None && ParseInt("5 ") == None
  {
    assert !IsDigit(' ');
    assert !AllDigits("5 ") by { assert "5 "[1] == ' '; }
  }

  /** How `processBankedUnlock` ends. */
  datatype Redemption = Ignored | Insufficient | Unlocked(minutes: int, after: Ledger)

  /**
    `processBankedUnlock` on a ledger: text that is not a positive integer is
    ignored; a positive amount above the balance is refused; otherwise the
    balance drops by exactly that many minutes.
   */
  function BankedUnlock(input: string, l: Ledger): (r: Redemption)
    ensures r.Ignored? <==> !(ParseInt(input).Some? && ParseInt(input).value > 0)
    ensures r.Insufficient? <==> ParseInt(input).Some? && ParseInt(input).value > 0 && l.banked < ParseInt(input).value as real
    ensures r.Unlocked? ==> ParseInt(input) == Some(r.minutes) && r.minutes > 0 && Spend(l, r.minutes as real) == Some(r.after)
  {
    match ParseInt(input)
    case None => Ignored
    case Some(minutes) =>
      if minutes <= 0 then Ignored
      else match Spend(l, minutes as real)
        case None => Insufficient
        case Some(after) => Unlocked(minutes, after)
  }

  /** A successful redemption leaves a non-negative balance non-negative and debt untouched. */
  lemma BankedUnlockKeepsBalance(input: string, l: Ledger)
    requires l.banked >= 0.0
    ensures BankedUnlock(input, l).Unlocked? ==>
              BankedUnlock(input, l).after.banked >= 0.0 &&
              BankedUnlock(input, l).after.banked < l.banked &&
              BankedUnlock(input, l).after.debt == l.debt
  {
  }

  /** The ledger seen when no UserStats record exists: a fresh record's. */
  const FreshLedger := Ledger(0.0, 0.0, None)

  /** With no record the balance is zero, so no positive amount can ever be redeemed. */
  lemma NoRecordNeverRedeems(input: string)
    ensures !BankedUnlock(input, FreshLedger).Unlocked?
  {
  }

  class ContentView {
    /** `userStats.first`; null when the store holds no record. */
    var stats: UserStats?
    var minutesToUse: string
    var showBankedMinutesInput: bool
    var showInsufficientFundsAlert: bool
    var pendingUnlockToken: Option<AppToken>
    const blocking: BlockingManager

    constructor (stats: UserStats?, blocking: BlockingManager)
      ensures this.stats == stats && this.blocking == blocking
      ensures minutesToUse == "" && !showBankedMinutesInput && !showInsufficientFundsAlert && pendingUnlockToken == None
    {
      this.stats := stats;
      this.blocking := blocking;
      minutesToUse := "";
      showBankedMinutesInput := false;
      showInsufficientFundsAlert := false;
      pendingUnlockToken := None;
    }

    /** `currentUserStats`'s ledger: the record's, or a fresh record's when there is none. */
    function CurrentLedger(): Ledger
      reads this, stats
    {
      if stats == null then FreshLedger else stats.CurrentLedger()
    }

    /**
      `canTakeDebt`: always with no record or no earlier debt, otherwise iff the
      last debt was not taken today. Private and never called in the app.
     */
    function CanTakeDebt(now: Date, day: Calendar): (allowed: bool)
      reads this, stats
      ensures stats == null ==> allowed
      ensures stats != null ==>
                (allowed <==> stats.lastDebtDate.None? || day(stats.lastDebtDate.value) != day(now))
    {
      DebtAllowed(CurrentLedger().lastDebtDate, now, day)
    }

    /** The "TriggerBankedUnlock" notification: remember the decoded token (if any) and ask for minutes. */
    method OnBankedUnlockRequest(decoded: Option<AppToken>)
      modifies this
      ensures pendingUnlockToken == decoded && showBankedMinutesInput
      ensures minutesToUse == old(minutesToUse) && showInsufficientFundsAlert == old(showInsufficientFundsAlert)
      ensures stats == old(stats)
    {
      pendingUnlockToken := decoded;
      showBankedMinutesInput := true;
    }

    /** The text field bound to `minutesToUse`. */
    method TypeMinutes(text: string)
      modifies this
      ensures minutesToUse == text
      ensures pendingUnlockToken == old(pendingUnlockToken) && showInsufficientFundsAlert == old(showInsufficientFundsAlert)
      ensures showBankedMinutesInput == old(showBankedMinutesInput) && stats == old(stats)
    {
      minutesToUse := text;
    }

    /**
      The picker writes its selection into the manager; the `onChange` that
      follows fires only on a different selection, which is then saved and
      shielded at once.
     */
    method SelectionChanged(selection: Selection)
      modifies blocking, blocking.store, blocking.defaults
      ensures blocking.selection == selection
      ensures selection == old(blocking.selection) ==> Untouched(blocking)
      ensures selection != old(blocking.selection) ==>
                && blocking.defaults.stored == Encoded(selection)
                && blocking.store.shield == Locked(old(blocking.store.shield), selection)
                && blocking.backupDeadlines == old(blocking.backupDeadlines)
    {
      if selection != blocking.selection {
        blocking.selection := selection;
        blocking.UpdateShield();
      }
    }

    /**
      `processBankedUnlock`: spends the typed minutes and unblocks the pending
      app (or everything) for that many minutes, then clears the input and the
      pending token; a short balance raises the alert and changes nothing else.
     */
    method ProcessBankedUnlock(now: int, accepted: bool)
      modifies this, stats, blocking, blocking.store, blocking.center, blocking.defaults
      ensures stats == old(stats) && showBankedMinutesInput == old(showBankedMinutesInput)
      ensures stats != null ==> stats.CountersUnchanged()
      ensures match BankedUnlock(old(minutesToUse), old(CurrentLedger()))
              case Ignored =>
                && CurrentLedger() == old(CurrentLedger()) && Untouched(blocking)
                && minutesToUse == old(minutesToUse) && pendingUnlockToken == old(pendingUnlockToken)
                && showInsufficientFundsAlert == old(showInsufficientFundsAlert)
              case Insufficient =>
                && CurrentLedger() == old(CurrentLedger()) && Untouched(blocking)
                && minutesToUse == old(minutesToUse) && pendingUnlockToken == old(pendingUnlockToken)
                && showInsufficientFundsAlert
              case Unlocked(minutes, after) =>
                && CurrentLedger() == after
                && SessionStarted(blocking, minutes, old(pendingUnlockToken), now, accepted)
                && minutesToUse == "" && pendingUnlockToken == None
                && showInsufficientFundsAlert == old(showInsufficientFundsAlert)
    {
      var parsed := ParseInt(minutesToUse);
      if parsed.None? || parsed.value <= 0 {
        return;
      }
      var minutes := parsed.value;
      var spent := Spend(CurrentLedger(), minutes as real);
      if spent.Some? {
        stats.SetLedger(spent.value);
        CeilMinutesOfWhole(minutes);
        blocking.UnblockTemporarily((minutes * 60) as real, pendingUnlockToken, now, accepted);
        minutesToUse := "";
        pendingUnlockToken := None;
      } else {
        showInsufficientFundsAlert := true;
      }
    }

    /**
      `handleDebtRequest`: when allowed, grants 15 minutes of debt and unblocks
      everything for 900 seconds; otherwise does nothing. With no record the
      grant is written to a throwaway record, but the unblock still happens.
      Private and never called in the app: the live debt path is the settings toggle.
     */
    method HandleDebtRequest(now: Date, day: Calendar, accepted: bool)
      modifies stats, blocking, blocking.store, blocking.center, blocking.defaults
      ensures stats != null ==> stats.CurrentLedger() == GrantDebt(old(stats.CurrentLedger()), now, day) && stats.CountersUnchanged()
      ensures if old(CanTakeDebt(now, day)) then SessionStarted(blocking, 15, None, now, accepted) else Untouched(blocking)
    {
      if CanTakeDebt(now, day) {
        if stats != null {
          stats.SetLedger(GrantDebt(stats.CurrentLedger(), now, day));
        }
        DefaultIsFifteenMinutes();
        blocking.UnblockTemporarily(DefaultUnblockSeconds, None, now, accepted);
      }
    }
  }
}
