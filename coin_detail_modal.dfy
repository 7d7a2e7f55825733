/**
 * The coin detail modal: a small state machine that loads a coin's detail and price
 * history, and on a rate-limit error waits sixty one-second ticks before loading again.
 *
 * Each event is a pure step on `ModalState`; the class `Modal` holds the same fields and
 * its methods are proved to perform those steps. Events are discrete and sequential:
 * a fetch start, a fetch completion with its outcome, a one-second tick, a prop change.
 */
module CoinDetailModal {
  import opened Optional
  import opened Strings
  import opened CryptoService

  const RetryDelaySeconds := 60

  // ------------------------------------------------------- loading detail and history

  /**
   * `Promise.all` over the two fetches: both values when both resolve, otherwise the
   * message of the rejection that settles first.
   */
  function PromiseAll(d: Outcome<CoinDetail>, h: Outcome<PriceHistory>, detailFailsFirst: bool)
    : (r: Outcome<(CoinDetail, PriceHistory)>)
    ensures r.Ok? <==> d.Ok? && h.Ok?
    ensures r.Ok? ==> r.value == (d.value, h.value)
    ensures r.Failed? ==> (d.Failed? && r.message == d.message) || (h.Failed? && r.message == h.message)
    ensures d.Failed? && h.Ok? ==> r == Failed(d.message)
    ensures d.Ok? && h.Failed? ==> r == Failed(h.message)
  {
    if d.Ok? && h.Ok? then Ok((d.value, h.value))
    else if d.Failed? && (h.Ok? || detailFailsFirst) then Failed(d.message)
    else Failed(h.message)
  }

  /** The requests one load issues and what it settles with; history always covers seven days. */
  function LoadCoin(coinId: string, detailServer: string -> Reply<CoinDetail>,
                    historyServer: string -> Reply<PriceHistory>, detailFailsFirst: bool)
    : (r: Call<(CoinDetail, PriceHistory)>)
    ensures r.requests == [CoinUrl(coinId), MarketChartUrl(coinId, DefaultDays)]
    ensures r.outcome == PromiseAll(Classify(Detail, detailServer(CoinUrl(coinId))),
                                    Classify(History, historyServer(MarketChartUrl(coinId, DefaultDays))),
                                    detailFailsFirst)
  {
    var d := FetchCoinDetail(coinId, detailServer);
    var h := FetchPriceHistory(coinId, DefaultDays, historyServer);
    Call(d.requests + h.requests, PromiseAll(d.outcome, h.outcome, detailFailsFirst))
  }

  // ------------------------------------------------------------ rate-limit detection

  /** The test the failure handler applies to an error message. */
  predicate IsRateLimited(message: string) {
    Contains(message, "429") || Contains(message, "rate limit")
  }

  /** The service's rate-limit message passes the test. */
  lemma RateLimitMessageDetected()
    ensures IsRateLimited(RateLimitMessage)
  {
    assert OccursAt(RateLimitMessage, "429", 25);
  }

  /** A message with neither a `4` nor an `m` cannot pass the test. */
  lemma NotRateLimitedWithout(m: string)
    requires '4' !in m && 'm' !in m
    ensures !IsRateLimited(m)
  {
    assert "429"[0] == '4' && "rate limit"[7] == 'm';
    MissingCharNotContained(m, "429", 0);
    MissingCharNotContained(m, "rate limit", 7);
  }

  lemma DetailFailureClean()
    ensures '4' !in FailureMessage(Detail) && 'm' !in FailureMessage(Detail)
  {
  }

  lemma HistoryFailureClean()
    ensures '4' !in FailureMessage(History) && 'm' !in FailureMessage(History)
  {
  }

  lemma MarketsFailureClean()
    ensures '4' !in FailureMessage(Markets) && 'm' !in FailureMessage(Markets)
  {
  }

  /** No generic failure message passes it. */
  lemma GenericFailureNotDetected(e: Endpoint)
    ensures !IsRateLimited(FailureMessage(e))
  {
    match e
    case Markets => MarketsFailureClean(); NotRateLimitedWithout(FailureMessage(e));
    case Detail => DetailFailureClean(); NotRateLimitedWithout(FailureMessage(e));
    case History => HistoryFailureClean(); NotRateLimitedWithout(FailureMessage(e));
  }

  /** For an HTTP reply, the modal sees a rate limit exactly when the status is 429. */
  lemma StatusDecidesRateLimit<T>(e: Endpoint, status: int, body: T)
    ensures var o := Classify(e, Response(status, body));
      o.Failed? && IsRateLimited(o.message) <==> status == 429
  {
    RateLimitMessageDetected();
    GenericFailureNotDetected(e);
  }

  /**
   * A load whose two requests both get HTTP replies: it succeeds iff both statuses are ok,
   * it is seen as rate-limited only when one status is 429, and it surely is when one
   * status is 429 and the other is 429 or ok.
   */
  lemma LoadRateLimit(coinId: string, detailServer: string -> Reply<CoinDetail>,
                      historyServer: string -> Reply<PriceHistory>, detailFailsFirst: bool)
    requires detailServer(CoinUrl(coinId)).Response?
    requires historyServer(MarketChartUrl(coinId, DefaultDays)).Response?
    ensures var r := LoadCoin(coinId, detailServer, historyServer, detailFailsFirst).outcome;
      var ds := detailServer(CoinUrl(coinId)).status;
      var hs := historyServer(MarketChartUrl(coinId, DefaultDays)).status;
      && (r.Ok? <==> IsOkStatus(ds) && IsOkStatus(hs))
      && (r.Failed? && IsRateLimited(r.message) ==> ds == 429 || hs == 429)
      && ((ds == 429 || hs == 429) && (ds == 429 || IsOkStatus(ds)) && (hs == 429 || IsOkStatus(hs))
          ==> r == Failed(RateLimitMessage))
  {
    RateLimitMessageDetected();
    GenericFailureNotDetected(Detail);
    GenericFailureNotDetected(History);
  }

  // ------------------------------------------------------------------- state machine

  /**
   * The component's state, its two props, and two observations: the coin ids of the
   * loads started so far, and how many of them have not settled yet.
   */
  datatype ModalState = ModalState(
    coinId: string,
    isOpen: bool,
    coinDetail: Option<CoinDetail>,
    priceHistory: Option<PriceHistory>,
    loading: bool,
    rateLimitError: bool,
    retryCountdown: nat,
    fetches: seq<string>,
    inFlight: nat)

  /** The countdown stays within its sixty seconds and runs whenever the flag is up. */
  predicate Inv(s: ModalState) {
    s.retryCountdown <= RetryDelaySeconds && (s.rateLimitError ==> s.retryCountdown > 0)
  }

  /** The start of `fetchData`: loading, flag cleared, one more load in flight. */
  function FetchStarted(s: ModalState): (r: ModalState)
    ensures r.loading && !r.rateLimitError
    ensures r.fetches == s.fetches + [s.coinId] && r.inFlight == s.inFlight + 1
    ensures r.coinId == s.coinId && r.isOpen == s.isOpen && r.retryCountdown == s.retryCountdown
    ensures r.coinDetail == s.coinDetail && r.priceHistory == s.priceHistory
    ensures Inv(s) ==> Inv(r)
  {
    s.(loading := true, rateLimitError := false, fetches := s.fetches + [s.coinId], inFlight := s.inFlight + 1)
  }

  /** `handleRateLimitError`: raise the flag and start the sixty-second countdown. */
  function RateLimitHandled(s: ModalState): (r: ModalState)
    ensures r.rateLimitError && r.retryCountdown == RetryDelaySeconds && Inv(r)
    ensures r.coinId == s.coinId && r.isOpen == s.isOpen && r.loading == s.loading
    ensures r.coinDetail == s.coinDetail && r.priceHistory == s.priceHistory
    ensures r.fetches == s.fetches && r.inFlight == s.inFlight
  {
    s.(rateLimitError := true, retryCountdown := RetryDelaySeconds)
  }

  /**
   * The end of `fetchData`: success stores both values, a rate-limit failure starts the
   * countdown, any other failure changes nothing but `loading`. A failure keeps whatever
   * detail an earlier load stored.
   */
  function FetchSettled(s: ModalState, result: Outcome<(CoinDetail, PriceHistory)>): (r: ModalState)
    requires s.inFlight > 0
    ensures !r.loading && r.inFlight == s.inFlight - 1 && r.fetches == s.fetches
    ensures r.coinId == s.coinId && r.isOpen == s.isOpen
    ensures result.Ok? ==> r.coinDetail == Some(result.value.0) && r.priceHistory == Some(result.value.1)
    ensures result.Failed? ==> r.coinDetail == s.coinDetail && r.priceHistory == s.priceHistory
    ensures result.Failed? && IsRateLimited(result.message) ==> r.rateLimitError && r.retryCountdown == RetryDelaySeconds
    ensures (result.Ok? || !IsRateLimited(result.message)) ==>
      r.rateLimitError == s.rateLimitError && r.retryCountdown == s.retryCountdown
    ensures Inv(s) ==> Inv(r)
  {
    var done := s.(inFlight := s.inFlight - 1);
    var handled :=
      match result
      case Ok((d, h)) => done.(coinDetail := Some(d), priceHistory := Some(h))
      case Failed(m) => if IsRateLimited(m) then RateLimitHandled(done) else done;
    handled.(loading := false)
  }

  /** The countdown effect: at zero with the flag up, clear the flag and load again. */
  function CountdownEffect(s: ModalState): (r: ModalState)
    ensures s.retryCountdown == 0 && s.rateLimitError ==> r == FetchStarted(s.(rateLimitError := false))
    ensures !(s.retryCountdown == 0 && s.rateLimitError) ==> r == s
  {
    if s.retryCountdown == 0 && s.rateLimitError then FetchStarted(s.(rateLimitError := false)) else s
  }

  /**
   * One second passing. While the countdown runs, the timer lowers it by one and the
   * effect then runs; at zero no timer is pending and nothing happens.
   */
  function Ticked(s: ModalState): (r: ModalState)
    ensures s.retryCountdown > 0 ==> r.retryCountdown == s.retryCountdown - 1
    ensures s.retryCountdown > 1 ==> r == s.(retryCountdown := s.retryCountdown - 1)
    ensures s.retryCountdown == 0 ==> r == s
    ensures Inv(s) ==> Inv(r)
  {
    if s.retryCountdown > 0 then CountdownEffect(s.(retryCountdown := s.retryCountdown - 1)) else s
  }

  function Ticks(s: ModalState, n: nat): ModalState
    decreases n
  {
    if n == 0 then s else Ticked(Ticks(s, n - 1))
  }

  /** The open effect: load when the modal is open on a coin. */
  function OpenEffect(s: ModalState): (r: ModalState)
    ensures s.isOpen && s.coinId != "" ==> r == FetchStarted(s)
    ensures !(s.isOpen && s.coinId != "") ==> r == s
  {
    if s.isOpen && s.coinId != "" then FetchStarted(s) else s
  }

  /** Mounting: empty state, then the open effect runs once. */
  function Mounted(coinId: string, isOpen: bool): (r: ModalState)
    ensures r.coinId == coinId && r.isOpen == isOpen
    ensures r.coinDetail == None && r.priceHistory == None && !r.rateLimitError && r.retryCountdown == 0
    ensures r.fetches == (if isOpen && coinId != "" then [coinId] else [])
    ensures r.loading <==> isOpen && coinId != ""
    ensures Inv(r)
  {
    OpenEffect(ModalState(coinId, isOpen, None, None, false, false, 0, [], 0))
  }

  /**
   * New props: the open effect runs only when one of them changed, and then loads only
   * when the modal is open on a coin. Nothing waits for a load already in flight.
   */
  function PropsChanged(s: ModalState, coinId: string, isOpen: bool): (r: ModalState)
    ensures r.coinId == coinId && r.isOpen == isOpen
    ensures r.coinDetail == s.coinDetail && r.priceHistory == s.priceHistory && r.retryCountdown == s.retryCountdown
    ensures |r.fetches| > |s.fetches| <==> (coinId != s.coinId || isOpen != s.isOpen) && isOpen && coinId != ""
    ensures |r.fetches| > |s.fetches| ==>
      r.fetches == s.fetches + [coinId] && r.inFlight == s.inFlight + 1 && r.loading && !r.rateLimitError
    ensures |r.fetches| == |s.fetches| ==>
      r.fetches == s.fetches && r.inFlight == s.inFlight && r.loading == s.loading && r.rateLimitError == s.rateLimitError
    ensures Inv(s) ==> Inv(r)
  {
    var next := s.(coinId := coinId, isOpen := isOpen);
    if coinId != s.coinId || isOpen != s.isOpen then OpenEffect(next) else next
  }

  /** Before the countdown reaches zero, ticks only lower it. */
  lemma {:induction false} TicksCountDown(s: ModalState, k: nat)
    requires k < s.retryCountdown
    ensures Ticks(s, k) == s.(retryCountdown := s.retryCountdown - k)
  {
    if k > 0 {
      TicksCountDown(s, k - 1);
    }
  }

  /**
   * With the flag up, the countdown's last tick clears the flag and starts exactly one
   * load of the same coin; every earlier tick only lowers the count.
   */
  lemma CountdownElapses(s: ModalState)
    requires s.rateLimitError && s.retryCountdown > 0
    ensures Ticks(s, s.retryCountdown - 1) == s.(retryCountdown := 1)
    ensures Ticks(s, s.retryCountdown) == FetchStarted(s.(retryCountdown := 0, rateLimitError := false))
  {
    TicksCountDown(s, s.retryCountdown - 1);
    var last := s.(retryCountdown := 1);
    assert Ticks(s, s.retryCountdown) == Ticked(last);
    assert Ticked(last) == CountdownEffect(s.(retryCountdown := 0));
  }

  /** With the flag down, the countdown runs out and nothing is loaded. */
  lemma CountdownWithoutFlag(s: ModalState)
    requires !s.rateLimitError
    ensures Ticks(s, s.retryCountdown) == s.(retryCountdown := 0)
  {
    if s.retryCountdown > 0 {
      TicksCountDown(s, s.retryCountdown - 1);
      var last := s.(retryCountdown := 1);
      assert Ticks(s, s.retryCountdown) == Ticked(last);
      assert Ticked(last) == CountdownEffect(s.(retryCountdown := 0));
    }
  }

  /** At zero with no rate limit pending, no timer runs: time passing changes nothing. */
  lemma {:induction false} IdleAtZero(s: ModalState, n: nat)
    requires s.retryCountdown == 0 && !s.rateLimitError
    ensures Ticks(s, n) == s
  {
    if n > 0 {
      IdleAtZero(s, n - 1);
    }
  }

  /**
   * A load rejected with the service's rate-limit message: sixty ticks later exactly one
   * new load of the same coin has started, and none before.
   */
  lemma RateLimitRetry(s: ModalState)
    requires s.inFlight > 0
    ensures var r := FetchSettled(s, Failed(RateLimitMessage));
      && r.rateLimitError && r.retryCountdown == 60 && !r.loading
      && Ticks(r, 59).fetches == s.fetches && Ticks(r, 59).retryCountdown == 1
      && Ticks(r, 60).fetches == s.fetches + [s.coinId]
      && Ticks(r, 60).loading && !Ticks(r, 60).rateLimitError && Ticks(r, 60).retryCountdown == 0
  {
    RateLimitMessageDetected();
    CountdownElapses(FetchSettled(s, Failed(RateLimitMessage)));
  }

  // ---------------------------------------------------------------- display helpers

  /** `m:ss`: whole minutes, then the seconds padded to two digits. */
  function FormatCountdown(c: nat): string {
    NatToString(c / 60) + [':'] + PadStart(NatToString(c % 60), 2, '0')
  }

  /**
   * Reads `m:ss` back into seconds: minutes without leading zeros, then two digits of
   * seconds below sixty.
   */
  function ParseCountdown(t: string): Option<nat> {
    var m := Before(t, ':');
    var sec := After(t, ':');
    if ':' in t && Canonical(m) && |sec| == 2 && AllDigits(sec) && DigitsValue(sec) < 60 then
      Some(DigitsValue(m) * 60 + DigitsValue(sec))
    else None
  }

  /** A one-digit number is padded with a leading zero that does not change its value. */
  lemma PaddedOneDigit(n: nat)
    requires n < 10
    ensures var p := PadStart(NatToString(n), 2, '0'); |p| == 2 && AllDigits(p) && DigitsValue(p) == n
  {
    var p := PadStart(NatToString(n), 2, '0');
    assert NatToString(n) == [DigitChar(n)];
    assert p == ['0', DigitChar(n)];
    assert p[..1] == ['0'] && ['0'][..0] == [];
  }

  /** A two-digit number is printed as it is. */
  lemma PaddedTwoDigits(n: nat)
    requires 10 <= n < 100
    ensures var p := PadStart(NatToString(n), 2, '0'); |p| == 2 && AllDigits(p) && DigitsValue(p) == n
  {
    assert NatToString(n / 10) == [DigitChar(n / 10)];
    assert |NatToString(n)| == 2;
    NatToStringRoundTrip(n);
  }

  /** Seconds below sixty print as exactly two digits with the same value. */
  lemma PaddedSeconds(n: nat)
    requires n < 60
    ensures var p := PadStart(NatToString(n), 2, '0'); |p| == 2 && AllDigits(p) && DigitsValue(p) == n
  {
    if n < 10 {
      PaddedOneDigit(n);
    } else {
      PaddedTwoDigits(n);
    }
  }

  /** The display shows `c div 60` minutes and `c mod 60` seconds, and so determines `c`. */
  lemma CountdownRoundTrip(c: nat)
    ensures ParseCountdown(FormatCountdown(c)) == Some(c)
  {
    var m := NatToString(c / 60);
    var p := PadStart(NatToString(c % 60), 2, '0');
    NatToStringRoundTrip(c / 60);
    NatToStringCanonical(c / 60);
    PaddedSeconds(c % 60);
    assert !IsDigit(':');
    SplitAtFirst(m, ':', p);
    assert FormatCountdown(c)[|m|] == ':';
  }

  /** Two digits of seconds below sixty are the padded printing of their value. */
  lemma SecondsTextUnique(sec: string)
    requires |sec| == 2 && AllDigits(sec) && DigitsValue(sec) < 60
    ensures PadStart(NatToString(DigitsValue(sec)), 2, '0') == sec
  {
    assert DigitsValue(sec) == DigitsValue(sec[..1]) * 10 + (sec[1] as int - '0' as int);
    if sec[0] == '0' {
      assert Canonical([sec[1]]);
      DigitsValueRoundTrip([sec[1]]);
      assert DigitsValue(sec[..1]) == 0;
      assert DigitsValue(sec) == DigitsValue([sec[1]]);
      assert sec == ['0', sec[1]];
    } else {
      DigitsValueRoundTrip(sec);
    }
  }

  /** Only the displayed text reads back: every text the parser accepts is the display of its value. */
  lemma CountdownTextUnique(t: string)
    requires ParseCountdown(t).Some?
    ensures FormatCountdown(ParseCountdown(t).value) == t
  {
    var m := Before(t, ':');
    var sec := After(t, ':');
    var c := ParseCountdown(t).value;
    assert c / 60 == DigitsValue(m) && c % 60 == DigitsValue(sec);
    DigitsValueRoundTrip(m);
    SecondsTextUnique(sec);
  }

  /** `en.split('.')[0] + '.'`: the first sentence, closed by its full stop. */
  function ShortDescription(en: string): (r: string)
    ensures |r| > 0 && r[|r| - 1] == '.' && '.' !in r[..|r| - 1]
    ensures '.' in en ==> IsPrefix(r, en)
    ensures '.' !in en ==> r == en + "."
  {
    var first := SplitAll(en, '.')[0];
    assert first == Before(en, '.');
    assert first + "." == first + ['.'];
    first + "."
  }

  // ------------------------------------------------------------------------ render

  /** What the modal shows. */
  datatype ModalView =
    | Hidden
    | RateLimitNotice(countdown: string)
    | Loading
    | Details(detail: CoinDetail, history: Option<PriceHistory>, description: Option<string>)
    | LoadError

  /**
   * Closed shows nothing; the rate-limit notice wins over the loading text; otherwise a
   * stored detail is shown (with its first sentence when it has a description), and the
   * error text only when no load ever succeeded.
   */
  function View(s: ModalState): (r: ModalView)
    ensures r.Hidden? <==> !s.isOpen
    ensures r.RateLimitNotice? <==> s.isOpen && s.rateLimitError
    ensures r.RateLimitNotice? ==> ParseCountdown(r.countdown) == Some(s.retryCountdown)
    ensures r.Loading? <==> s.isOpen && s.loading && !s.rateLimitError
    ensures r.Details? <==> s.isOpen && !s.loading && !s.rateLimitError && s.coinDetail.Some?
    ensures r.Details? ==> r.detail == s.coinDetail.value && r.history == s.priceHistory
    ensures r.Details? ==> (r.description.Some? <==> r.detail.descriptionEn != "")
    ensures r.Details? && r.detail.descriptionEn != "" ==> r.description == Some(ShortDescription(r.detail.descriptionEn))
    ensures r.LoadError? <==> s.isOpen && !s.loading && !s.rateLimitError && s.coinDetail.None?
  {
    if !s.isOpen then Hidden
    else if s.loading || s.rateLimitError then
      if s.rateLimitError then
        CountdownRoundTrip(s.retryCountdown);
        RateLimitNotice(FormatCountdown(s.retryCountdown))
      else Loading
    else if s.coinDetail.Some? then
      var d := s.coinDetail.value;
      Details(d, s.priceHistory, if d.descriptionEn != "" then Some(ShortDescription(d.descriptionEn)) else None)
    else LoadError
  }

  /**
   * A failed load of a new coin after an earlier success still shows the earlier coin's
   * detail, since a failure clears nothing.
   */
  lemma FailureShowsEarlierDetail(s: ModalState, coinId: string, message: string)
    requires s.isOpen && s.coinDetail.Some? && s.coinId != coinId && coinId != "" && !IsRateLimited(message)
    ensures var r := FetchSettled(PropsChanged(s, coinId, true), Failed(message));
      View(r) == Details(s.coinDetail.value, s.priceHistory, View(r).description) && r.coinId == coinId
  {
  }

  // ------------------------------------------------------------------------- class

  /** The component instance: the state the hooks hold, updated one event at a time. */
  class Modal {
    var coinId: string
    var isOpen: bool
    var coinDetail: Option<CoinDetail>
    var priceHistory: Option<PriceHistory>
    var loading: bool
    var rateLimitError: bool
    var retryCountdown: nat
    ghost var fetches: seq<string>
    ghost var inFlight: nat

    ghost function State(): ModalState
      reads this
    {
      ModalState(coinId, isOpen, coinDetail, priceHistory, loading, rateLimitError, retryCountdown, fetches, inFlight)
    }

    /** Mounting with the first props; the open effect runs once. */
    constructor (coinId: string, isOpen: bool)
      ensures State() == Mounted(coinId, isOpen)
    {
      this.coinId := coinId;
      this.isOpen := isOpen;
      coinDetail := None;
      priceHistory := None;
      loading := false;
      rateLimitError := false;
      retryCountdown := 0;
      fetches := [];
      inFlight := 0;
      new;
      if isOpen && coinId != "" {
        StartFetch();
      }
    }

    /** The synchronous start of `fetchData`; the load itself is now in flight. */
    method StartFetch()
      modifies this
      ensures State() == FetchStarted(old(State()))
    {
      loading := true;
      rateLimitError := false;
      fetches := fetches + [coinId];
      inFlight := inFlight + 1;
    }

    method HandleRateLimitError()
      modifies this
      ensures State() == RateLimitHandled(old(State()))
    {
      rateLimitError := true;
      retryCountdown := RetryDelaySeconds;
    }

    /** The rest of `fetchData`, once the load settles. */
    method Complete(result: Outcome<(CoinDetail, PriceHistory)>)
      requires inFlight > 0
      modifies this
      ensures State() == FetchSettled(old(State()), result)
    {
      inFlight := inFlight - 1;
      match result {
        case Ok((d, h)) =>
          coinDetail := Some(d);
          priceHistory := Some(h);
        case Failed(m) =>
          if IsRateLimited(m) {
            HandleRateLimitError();
          }
      }
      loading := false;
    }

    /** A second passing: the pending timer fires and the countdown effect follows. */
    method Tick()
      modifies this
      ensures State() == Ticked(old(State()))
    {
      if retryCountdown > 0 {
        retryCountdown := retryCountdown - 1;
        if retryCountdown == 0 && rateLimitError {
          rateLimitError := false;
          StartFetch();
        }
      }
    }

    /** A re-render with new props; the open effect runs when one of them changed. */
    method ChangeProps(newCoinId: string, newIsOpen: bool)
      modifies this
      ensures State() == PropsChanged(old(State()), newCoinId, newIsOpen)
    {
      var changed := newCoinId != coinId || newIsOpen != isOpen;
      coinId := newCoinId;
      isOpen := newIsOpen;
      if changed && isOpen && coinId != "" {
        StartFetch();
      }
    }

    /** What the modal shows in its current state. */
    method Render() returns (v: ModalView)
      ensures v == View(State())
    {
      v := View(ModalState(coinId, isOpen, coinDetail, priceHistory, loading, rateLimitError, retryCountdown, [], 0));
    }
  }
}
