/** The Wi-Fi station service (`wifi_service.c`): an event handler that
    connects when the station starts, retries a bounded number of times
    after each disconnect, and resets its retry budget once an address is
    obtained. Driver, NVS and netif initialisation are not modelled; a call
    to `esp_wifi_connect` is counted. */
module WifiService {
  import AppConfig

  /** The events the handler distinguishes; `Other` stands for every other
      event base and id, which the handler ignores. */
  datatype Event = StaStart | StaDisconnected | StaGotIp | Other

  /** `s_connected`, `s_retry_count` and the number of connection attempts
      issued so far. */
  datatype State = State(connected: bool, retry: int, connects: nat)

  /** The retry counter never leaves `[0, APP_WIFI_MAX_RETRY]`. */
  predicate ValidState(s: State)
  {
    0 <= s.retry <= AppConfig.WIFI_MAX_RETRY
  }

  /** One call of `wifi_event_handler`. */
  function Step(s: State, e: Event): State
  {
    match e
    case StaStart => s.(connects := s.connects + 1)
    case StaDisconnected =>
      if s.retry < AppConfig.WIFI_MAX_RETRY then
        State(false, s.retry + 1, s.connects + 1)
      else
        s.(connected := false)
    case StaGotIp => s.(retry := 0, connected := true)
    case Other => s
  }

  /** The state after a sequence of events. */
  function Run(s: State, es: seq<Event>): State
    decreases |es|
  {
    if es == [] then s else Run(Step(s, es[0]), es[1..])
  }

  /** `n` disconnect events in a row. */
  function Disconnects(n: nat): (es: seq<Event>)
    ensures |es| == n && forall i :: 0 <= i < n ==> es[i] == StaDisconnected
  {
    seq(n, _ => StaDisconnected)
  }

  /** Every event keeps the retry counter in range. */
  lemma StepValid(s: State, e: Event)
    requires ValidState(s)
    ensures ValidState(Step(s, e))
    ensures Step(s, e).connects <= s.connects + 1
  {
  }

  lemma {:induction false} RunValid(s: State, es: seq<Event>)
    requires ValidState(s)
    ensures ValidState(Run(s, es))
    decreases |es|
  {
    if es != [] {
      StepValid(s, es[0]);
      RunValid(Step(s, es[0]), es[1..]);
    }
  }

  /** A burst of disconnects reconnects only while the budget lasts: `n`
      disconnects from retry count `r` issue `min(n, MAX - r)` attempts
      and leave the counter at `min(r + n, MAX)`. */
  lemma {:induction false} DisconnectBurst(s: State, n: nat)
    requires ValidState(s)
    ensures var t := Run(s, Disconnects(n));
      var left := AppConfig.WIFI_MAX_RETRY - s.retry;
      t.connects == s.connects + (if n <= left then n else left) &&
      t.retry == (if n <= left then s.retry + n else AppConfig.WIFI_MAX_RETRY) &&
      (n > 0 ==> !t.connected)
    decreases n
  {
    if n > 0 {
      assert Disconnects(n)[0] == StaDisconnected;
      assert Disconnects(n)[1..] == Disconnects(n - 1);
      DisconnectBurst(Step(s, StaDisconnected), n - 1);
    }
  }

  /** Obtaining an address restores the full budget: after `GOT_IP`, a
      burst of disconnects always gets `APP_WIFI_MAX_RETRY` attempts. */
  lemma GotIpRestoresBudget(s: State, n: nat)
    requires ValidState(s)
    ensures Run(s, [StaGotIp] + Disconnects(n)).connects ==
              s.connects + (if n <= AppConfig.WIFI_MAX_RETRY then n else AppConfig.WIFI_MAX_RETRY)
  {
    var es := [StaGotIp] + Disconnects(n);
    assert es[0] == StaGotIp && es[1..] == Disconnects(n);
    DisconnectBurst(Step(s, StaGotIp), n);
  }

  /** The handler's module state. */
  class Wifi {
    var connected: bool
    var retryCount: int
    /** How many times `esp_wifi_connect` has been called. */
    var connectCalls: nat

    function Snapshot(): State
      reads this
    {
      State(connected, retryCount, connectCalls)
    }

    ghost predicate Valid()
      reads this
    {
      ValidState(Snapshot())
    }

    /** The zero-initialised statics. */
    constructor ()
      ensures Valid() && !connected && retryCount == 0 && connectCalls == 0
    {
      connected := false;
      retryCount := 0;
      connectCalls := 0;
    }

    /** `wifi_event_handler`. */
    method HandleEvent(e: Event)
      requires Valid()
      modifies this
      ensures Valid()
      ensures Snapshot() == Step(old(Snapshot()), e)
      ensures e == StaDisconnected ==> !connected
      ensures e == StaGotIp ==> connected && retryCount == 0
      ensures e == StaDisconnected && old(retryCount) == AppConfig.WIFI_MAX_RETRY ==>
                connectCalls == old(connectCalls) && retryCount == old(retryCount)
    {
      match e {
        case StaStart =>
          connectCalls := connectCalls + 1;
        case StaDisconnected =>
          connected := false;
          if retryCount < AppConfig.WIFI_MAX_RETRY {
            retryCount := retryCount + 1;
            connectCalls := connectCalls + 1;
          }
        case StaGotIp =>
          retryCount := 0;
          connected := true;
        case Other =>
      }
    }

    /** `wifi_service_is_connected`: true exactly between an IP being
      obtained and the next disconnect. */
    method IsConnected() returns (r: bool)
      ensures r == connected
    {
      r := connected;
    }
  }
}
