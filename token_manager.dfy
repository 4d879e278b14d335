/**
  The WhatsApp access-token manager: the expiry it records from the token
  debugger's answer, the status it reports, the "expiring soon" test, the
  renewal reminder and the guard of the refresh call. Times are integer
  milliseconds since the epoch; the current time is a parameter.
 */
module TokenManager {
  import opened JsText

  const DayMs := 24 * 60 * 60 * 1000

  /** The reminder fires this long before expiry. */
  const ReminderLeadMs := 5 * DayMs

  /** The longest delay `setTimeout` honours: 2^31 - 1 ms, about 24.8 days. */
  const MaxTimerDelayMs := 0x7FFF_FFFF

  /**
    The delay after which Node.js's `setTimeout(f, delay)` actually fires:
    a delay above 2^31 - 1 ms (or below 1 ms) is replaced by 1 ms.
   */
  function TimerDelay(delay: int): (fired: int)
    ensures 1 <= fired <= MaxTimerDelayMs
    ensures fired == delay <==> 1 <= delay <= MaxTimerDelayMs
    ensures delay > MaxTimerDelayMs ==> fired == 1
  {
    if 1 <= delay <= MaxTimerDelayMs then delay else 1
  }

  /** `Math.ceil(x / d)` for a positive divisor. */
  function CeilDiv(x: int, d: int): (q: int)
    requires d > 0
    ensures (q - 1) * d < x <= q * d
  {
    -((-x) / d)
  }

  /** What `getTokenInfo` gave: its `data` with the `expires_at` field (in seconds, absent as `None`), or a failure. */
  datatype TokenInfoOutcome = TokenInfo(expiresAt: Option<int>) | TokenInfoFailed

  /** `getTokenStatus()`'s `{ status, message, daysRemaining }`. */
  datatype TokenStatus = TokenStatus(status: string, message: string, daysRemaining: Option<int>)

  /** What the token-exchange request gave: a body with or without `access_token`, or a failure. */
  datatype RefreshOutcome = RefreshAnswered(accessToken: Option<string>) | RefreshFailed

  /** What `refreshToken` resolves to: `false`, the new token, or `undefined` when the body had none. */
  datatype RefreshResult = RefreshRefused | NewToken(token: string) | NoResult

  /** The expiry, in milliseconds, that a token-info answer records: none for a failure or a missing or zero `expires_at`. */
  function ExpiryOf(info: TokenInfoOutcome): (ms: Option<int>)
    ensures ms.Some? <==> info.TokenInfo? && info.expiresAt.Some? && info.expiresAt.value != 0
    ensures ms.Some? ==> ms.value == info.expiresAt.value * 1000 && ms.value % 1000 == 0
  {
    if info.TokenInfo? && info.expiresAt.Some? && info.expiresAt.value != 0 then Some(info.expiresAt.value * 1000) else None
  }

  class WhatsAppTokenManager {
    var currentToken: Option<string>
    var appId: Option<string>
    var appSecret: Option<string>
    /** `tokenExpiryDate`, in milliseconds; `None` is `null`. */
    var tokenExpiryMs: Option<int>

    /** Reads the three settings; no expiry is known yet. */
    constructor(token: Option<string>, id: Option<string>, secret: Option<string>)
      ensures currentToken == token && appId == id && appSecret == secret && tokenExpiryMs == None
    {
      currentToken, appId, appSecret := token, id, secret;
      tokenExpiryMs := None;
    }

    /**
      `initializeTokenInfo`: a truthy `expires_at` (seconds) is recorded as
      milliseconds and the reminder is scheduled; a missing or zero one, or
      a failed lookup, records nothing. Returns the delay after which the
      reminder fires, if one was scheduled.
     */
    method InitializeTokenInfo(info: TokenInfoOutcome, now: int) returns (reminder: Option<int>)
      modifies this`tokenExpiryMs
      ensures tokenExpiryMs == if ExpiryOf(info).Some? then ExpiryOf(info) else old(tokenExpiryMs)
      ensures reminder == if ExpiryOf(info).Some? then ScheduledReminder(now) else None
    {
      reminder := None;
      if info.TokenInfo? && info.expiresAt.Some? && info.expiresAt.value != 0 {
        tokenExpiryMs := Some(info.expiresAt.value * 1000);
        var _, fires := ScheduleRenewalReminder(now);
        reminder := fires;
      }
    }

    /** The delay the renewal reminder asks `setTimeout` for at `now`: the time until five days before expiry, if that is still ahead. */
    function RenewalReminder(now: int): (delay: Option<int>)
      reads this
      ensures delay.Some? <==> tokenExpiryMs.Some? && tokenExpiryMs.value - now > ReminderLeadMs
      ensures delay.Some? ==> delay.value > 0 && now + delay.value + ReminderLeadMs == tokenExpiryMs.value
    {
      if tokenExpiryMs.None? then None
      else
        var reminderTime := tokenExpiryMs.value - now - ReminderLeadMs;
        if reminderTime > 0 then Some(reminderTime) else None
    }

    /**
      When the reminder timer really fires after `now`: the requested delay
      as `setTimeout` honours it. It fires five days before expiry exactly
      when the requested delay fits in 2^31 - 1 ms.
     */
    function ScheduledReminder(now: int): (fires: Option<int>)
      reads this
      ensures fires.Some? <==> RenewalReminder(now).Some?
      ensures fires.Some? ==> fires.value == TimerDelay(RenewalReminder(now).value)
      ensures fires.Some? ==> (now + fires.value + ReminderLeadMs == tokenExpiryMs.value
                               <==> tokenExpiryMs.value - now - ReminderLeadMs <= MaxTimerDelayMs)
    {
      match RenewalReminder(now)
      case None => None
      case Some(delay) => Some(TimerDelay(delay))
    }

    /**
      `scheduleRenewalReminder`: the delay it passes to `setTimeout`, if it
      sets a timer, and the delay after which that timer fires.
     */
    method ScheduleRenewalReminder(now: int) returns (requested: Option<int>, fires: Option<int>)
      ensures requested == RenewalReminder(now)
      ensures fires == ScheduledReminder(now)
    {
      if tokenExpiryMs.None? {
        return None, None;
      }
      var timeUntilExpiry := tokenExpiryMs.value - now;
      var reminderTime := timeUntilExpiry - 5 * 24 * 60 * 60 * 1000;
      if reminderTime > 0 {
        requested := Some(reminderTime);
        fires := Some(TimerDelay(reminderTime));
      } else {
        requested, fires := None, None;
      }
    }

    /**
      `isTokenExpiringSoon(daysThreshold)`: the time left, in days, is at
      most the threshold; equivalently, the whole days left, rounded up as
      `getTokenStatus` counts them, are at most the threshold.
     */
    function IsTokenExpiringSoon(now: int, daysThreshold: int): (soon: bool)
      reads this
      ensures soon <==> tokenExpiryMs.Some? && CeilDiv(tokenExpiryMs.value - now, DayMs) <= daysThreshold
    {
      tokenExpiryMs.Some? && tokenExpiryMs.value - now <= daysThreshold * DayMs
    }

    /** `getTokenStatus`: permanent, expired, expiring within 7 days, or active, by whole days left rounded up. */
    function GetTokenStatus(now: int): (s: TokenStatus)
      reads this
      ensures tokenExpiryMs.None? <==> s.daysRemaining.None?
      ensures tokenExpiryMs.None? ==> s.status == "permanent"
      ensures tokenExpiryMs.Some? ==>
                var left := tokenExpiryMs.value - now;
                && (s.status == "expired" <==> left <= 0)
                && (s.status == "expiring_soon" <==> 0 < left <= 7 * DayMs)
                && (s.status == "active" <==> left > 7 * DayMs)
                && (s.status == "expired" ==> s.daysRemaining == Some(0))
                && (s.status != "expired" ==> (s.daysRemaining.value - 1) * DayMs < left <= s.daysRemaining.value * DayMs)
    {
      if tokenExpiryMs.None? then TokenStatus("permanent", "Token appears to be permanent", None)
      else
        var days := CeilDiv(tokenExpiryMs.value - now, DayMs);
        if days <= 0 then TokenStatus("expired", "Token has expired", Some(0))
        else if days <= 7 then TokenStatus("expiring_soon", "Token expires in " + NumberToString(days) + " days", Some(days))
        else TokenStatus("active", "Token expires in " + NumberToString(days) + " days", Some(days))
    }

    /**
      `refreshToken`: without both an app id and a secret it answers false
      and makes no request; otherwise a failed request is false, a body with
      a token gives that token, and a body without one gives undefined. The
      stored token is not replaced. `requested` says whether the exchange
      request was made.
     */
    method RefreshToken(outcome: RefreshOutcome) returns (result: RefreshResult, requested: bool)
      ensures requested <==> appId.Some? && appId.value != "" && appSecret.Some? && appSecret.value != ""
      ensures !requested ==> result == RefreshRefused
      ensures requested ==> result == match outcome
                                      case RefreshFailed => RefreshRefused
                                      case RefreshAnswered(t) =>
                                        if t.Some? && t.value != "" then NewToken(t.value) else NoResult
    {
      if appId.None? || appId.value == "" || appSecret.None? || appSecret.value == "" {
        return RefreshRefused, false;
      }
      requested := true;
      match outcome {
        case RefreshFailed =>
          result := RefreshRefused;
        case RefreshAnswered(t) =>
          if t.Some? && t.value != "" {
            result := NewToken(t.value);
          } else {
            result := NoResult;
          }
      }
    }
  }

  /** With no expiry recorded, the token is permanent and never expiring soon. */
  lemma PermanentTokenNeverExpiring(m: WhatsAppTokenManager, now: int, threshold: int)
    requires m.tokenExpiryMs.None?
    ensures m.GetTokenStatus(now) == TokenStatus("permanent", "Token appears to be permanent", None)
    ensures !m.IsTokenExpiringSoon(now, threshold)
  {
  }

  /**
    The status and the default test agree: "expiring_soon" and "expired"
    both pass `isTokenExpiringSoon()` with its default of 7 days, "active"
    fails it.
   */
  lemma StatusAgreesWithExpiringSoon(m: WhatsAppTokenManager, now: int)
    ensures m.GetTokenStatus(now).status in {"expiring_soon", "expired"} ==> m.IsTokenExpiringSoon(now, 7)
    ensures m.GetTokenStatus(now).status == "active" ==> !m.IsTokenExpiringSoon(now, 7)
  {
  }

  /** A token recorded as expiring at `expiresAt` seconds, examined three days before: expiring soon, 3 days left, no reminder. */
  method ThreeDaysLeft(expiresAt: int) returns (status: TokenStatus, reminder: Option<int>, soon: bool)
    requires expiresAt > 0
    ensures status.status == "expiring_soon" && status.daysRemaining == Some(3)
    ensures reminder == None && soon
  {
    var m := new WhatsAppTokenManager(Some("token"), None, None);
    var now := expiresAt * 1000 - 3 * DayMs;
    reminder := m.InitializeTokenInfo(TokenInfo(Some(expiresAt)), now);
    assert m.tokenExpiryMs == Some(now + 3 * DayMs);
    assert CeilDiv(3 * DayMs, DayMs) == 3;
    status := m.GetTokenStatus(now);
    soon := m.IsTokenExpiringSoon(now, 7);
  }

  /** Ten days ahead the token is active and the reminder fires five days from now. */
  method TenDaysLeft(expiresAt: int) returns (status: TokenStatus, reminder: Option<int>)
    requires expiresAt > 0
    ensures status.status == "active" && status.daysRemaining == Some(10)
    ensures reminder == Some(5 * DayMs)
  {
    var m := new WhatsAppTokenManager(Some("token"), None, None);
    var now := expiresAt * 1000 - 10 * DayMs;
    reminder := m.InitializeTokenInfo(TokenInfo(Some(expiresAt)), now);
    assert m.tokenExpiryMs == Some(now + 10 * DayMs);
    assert CeilDiv(10 * DayMs, DayMs) == 10;
    status := m.GetTokenStatus(now);
  }

  /**
    As written: with more than 5 days plus 2^31 - 1 ms (about 29.9 days)
    left, the requested delay overflows `setTimeout`, and the reminder
    fires after 1 ms instead of five days before expiry.
   */
  lemma LongTokensRemindAtOnce(m: WhatsAppTokenManager, now: int)
    requires m.tokenExpiryMs.Some? && m.tokenExpiryMs.value - now > ReminderLeadMs + MaxTimerDelayMs
    ensures m.RenewalReminder(now).Some? && m.RenewalReminder(now).value > MaxTimerDelayMs
    ensures m.ScheduledReminder(now) == Some(1)
    ensures now + m.ScheduledReminder(now).value + ReminderLeadMs < m.tokenExpiryMs.value
  {
  }

  /** A freshly issued 60-day token: the reminder asks for 55 days and fires after 1 ms. */
  method SixtyDaysLeft(expiresAt: int) returns (status: TokenStatus, reminder: Option<int>)
    requires expiresAt > 0
    ensures status.status == "active" && status.daysRemaining == Some(60)
    ensures reminder == Some(1)
  {
    var m := new WhatsAppTokenManager(Some("token"), None, None);
    var now := expiresAt * 1000 - 60 * DayMs;
    reminder := m.InitializeTokenInfo(TokenInfo(Some(expiresAt)), now);
    assert m.tokenExpiryMs == Some(now + 60 * DayMs);
    assert CeilDiv(60 * DayMs, DayMs) == 60;
    status := m.GetTokenStatus(now);
  }

  /**
    Corrected: a reminder that re-arms itself, waiting at most 2^31 - 1 ms
    at a time until the reminder time is reached. Every delay it asks for
    is one `setTimeout` honours.
   */
  function RearmingDelays(wait: int): (ds: seq<int>)
    ensures forall i :: 0 <= i < |ds| ==> 1 <= ds[i] <= MaxTimerDelayMs
    decreases wait
  {
    if wait <= 0 then []
    else if wait <= MaxTimerDelayMs then [wait]
    else [MaxTimerDelayMs] + RearmingDelays(wait - MaxTimerDelayMs)
  }

  /** How long a chain of timers, each started when the previous fires, takes to fire its last. */
  function ElapsedFiring(ds: seq<int>): int {
    if ds == [] then 0 else TimerDelay(ds[0]) + ElapsedFiring(ds[1..])
  }

  /** The re-arming chain fires its last timer exactly `wait` ms later. */
  lemma {:induction false} RearmingFiresOnTime(wait: int)
    requires wait > 0
    ensures ElapsedFiring(RearmingDelays(wait)) == wait
    decreases wait
  {
    if wait > MaxTimerDelayMs {
      RearmingFiresOnTime(wait - MaxTimerDelayMs);
      var rest := RearmingDelays(wait - MaxTimerDelayMs);
      assert RearmingDelays(wait) == [MaxTimerDelayMs] + rest;
      assert ([MaxTimerDelayMs] + rest)[1..] == rest;
    }
  }

  /** With the corrected schedule the reminder fires five days before expiry, however far away expiry is. */
  lemma CorrectedReminderOnTime(m: WhatsAppTokenManager, now: int)
    requires m.RenewalReminder(now).Some?
    ensures now + ElapsedFiring(RearmingDelays(m.RenewalReminder(now).value)) + ReminderLeadMs == m.tokenExpiryMs.value
  {
    RearmingFiresOnTime(m.RenewalReminder(now).value);
  }
}
