/**
 * The prize wheel's bookkeeping (src/utils/spin.ts): the stored spin status and its
 * one-hour lock, the cumulative-probability choice of a sector, the countdown text, and
 * the currency symbols. The clock and the random draw are parameters.
 */
module Spin {
  import opened Common
  import opened Decimal

  /** `UserSpinStatus`; `nextSpinTime` is a time in milliseconds. */
  datatype SpinStatus = SpinStatus(lastSpinDate: string, hasSpunToday: bool, nextSpinTime: int)

  /** The status reported when none can be read. */
  const EmptyStatus: SpinStatus := SpinStatus("", false, 0)

  /** The length of the lock after a spin: one hour. */
  const SpinLock: int := 60 * 60 * 1000

  /** What `localStorage` holds under `turbo_wheel_spin_status`, when it holds something
    * non-empty: a status that `JSON.parse` reads back, or text it rejects. */
  datatype StoredStatus = Unparseable | Parsed(status: SpinStatus)

  /** `getSpinStatus()` at time `now`; `onServer` is `typeof window === 'undefined'`. */
  function GetSpinStatus(stored: Option<StoredStatus>, now: int, onServer: bool): (status: SpinStatus)
    ensures onServer || stored.None? || stored.value.Unparseable? ==> status == EmptyStatus
    ensures !onServer && stored.Some? && stored.value.Parsed? ==>
              var s := stored.value.status;
              status.lastSpinDate == s.lastSpinDate
              && (status.hasSpunToday <==> s.nextSpinTime > now)
              && status.nextSpinTime == (if status.hasSpunToday then s.nextSpinTime else 0)
  {
    if onServer then EmptyStatus
    else match stored
      case None => EmptyStatus
      case Some(Unparseable) => EmptyStatus
      case Some(Parsed(s)) =>
        var hasSpunToday := s.nextSpinTime > now;
        var nextSpinTime := if hasSpunToday then s.nextSpinTime else 0;
        s.(hasSpunToday := hasSpunToday, nextSpinTime := nextSpinTime)
  }

  /** `getAvailableSpins()`: none on the server, none while locked, else one. */
  function GetAvailableSpins(stored: Option<StoredStatus>, now: int, onServer: bool): (spins: int)
    ensures spins == 0 || spins == 1
    ensures spins == 1 <==> !onServer && !GetSpinStatus(stored, now, onServer).hasSpunToday
  {
    if onServer then 0
    else if GetSpinStatus(stored, now, onServer).hasSpunToday then 0 else 1
  }

  /** The browser's storage slot for the spin status. */
  class SpinStorage {
    var stored: Option<StoredStatus>

    constructor(initial: Option<StoredStatus>)
      ensures stored == initial
    {
      stored := initial;
    }

    /** `updateSpinStatus()` at time `now`; `dateString` is `now.toDateString()`. */
    method UpdateSpinStatus(now: int, dateString: string, onServer: bool)
      modifies this
      ensures onServer ==> stored == old(stored)
      ensures !onServer ==> stored == Some(Parsed(SpinStatus(dateString, true, now + SpinLock)))
    {
      if onServer {
        return;
      }
      var nextSpinTime := now + 60 * 60 * 1000;
      var status := SpinStatus(dateString, true, nextSpinTime);
      stored := Some(Parsed(status));
    }
  }

  /** After a spin at `now`, the wheel is locked exactly until `now` plus one hour: a read
    * before then reports the spin and no spins left, a read from then on reports neither. */
  lemma LockedForAnHour(now: int, later: int, dateString: string)
    ensures var stored := Some(Parsed(SpinStatus(dateString, true, now + SpinLock)));
            (GetSpinStatus(stored, later, false).hasSpunToday <==> later < now + 3600000)
            && (GetAvailableSpins(stored, later, false) == 0 <==> later < now + 3600000)
            && GetSpinStatus(stored, later, false).lastSpinDate == dateString
  {
    var stored := Some(Parsed(SpinStatus(dateString, true, now + SpinLock)));
    var st := GetSpinStatus(stored, later, false);
    assert st.hasSpunToday <==> now + SpinLock > later;
  }

  /** Reading the status again at the same time changes nothing. */
  lemma StatusIsStable(stored: Option<StoredStatus>, now: int)
    requires 0 <= now
    ensures var s := GetSpinStatus(stored, now, false);
            GetSpinStatus(Some(Parsed(s)), now, false) == s
  {
  }

  // ---------------------------------------------------------------------
  // the wheel

  /** `WheelSector` (its colour is not modelled). */
  datatype Sector = Sector(amount: nat, promocode: string, probability: int)

  /** `WHEEL_SECTORS` */
  const WheelSectors: seq<Sector> := [
    Sector(5, "TURBO5", 0), Sector(10, "TURBO10", 0), Sector(20, "TURBO20", 0),
    Sector(25, "TURBO25", 0), Sector(40, "TURBO40", 0), Sector(50, "TURBO50", 100)]

  /** `SpinResult` (the floating-point `localAmount` is not modelled). */
  datatype SpinResult = SpinResult(amount: nat, currency: string, promocode: string,
                                   sectorIndex: nat, prizeType: string)

  /** The sum of the probabilities of `sectors`. */
  function ProbabilitySum(sectors: seq<Sector>): int
    decreases |sectors|
  {
    if sectors == [] then 0
    else ProbabilitySum(sectors[..|sectors| - 1]) + sectors[|sectors| - 1].probability
  }

  /** The first index from `i` on whose cumulative probability reaches `random`, or 0. */
  function ChosenFrom(sectors: seq<Sector>, random: real, i: nat): (k: nat)
    ensures k < |sectors| || k == 0
    decreases |sectors| - i
  {
    if i >= |sectors| then 0
    else if random <= ProbabilitySum(sectors[..i + 1]) as real then i
    else ChosenFrom(sectors, random, i + 1)
  }

  /** The result for sector `i` of the wheel. */
  function ResultFor(userCurrency: string, i: nat): SpinResult
    requires i < |WheelSectors|
  {
    var sector := WheelSectors[i];
    SpinResult(sector.amount, userCurrency, sector.promocode, i, "prize_" + NatToString(sector.amount))
  }

  /** `generateSpinResult(userCurrency)` with `random` for `Math.random()`. */
  method GenerateSpinResult(userCurrency: string, random: real) returns (result: SpinResult)
    ensures result.sectorIndex == ChosenFrom(WheelSectors, random, 0)
    ensures result.sectorIndex < |WheelSectors|
    ensures var sector := WheelSectors[result.sectorIndex];
            result.amount == sector.amount && result.promocode == sector.promocode
            && result.currency == userCurrency && result.prizeType == "prize_" + NatToString(sector.amount)
  {
    var sectors := WheelSectors;
    var cumulative := 0;
    for i := 0 to |sectors|
      invariant cumulative == ProbabilitySum(sectors[..i])
      invariant ChosenFrom(sectors, random, i) == ChosenFrom(sectors, random, 0)
    {
      assert sectors[..i + 1][..i] == sectors[..i];
      cumulative := cumulative + sectors[i].probability;
      if random <= cumulative as real {
        return ResultFor(userCurrency, i);
      }
    }
    return ResultFor(userCurrency, 0);
  }

  /** The cumulative sums of this wheel are 0, 0, 0, 0, 0, 100. */
  lemma WheelSums()
    ensures forall i :: 1 <= i <= 5 ==> ProbabilitySum(WheelSectors[..i]) == 0
    ensures ProbabilitySum(WheelSectors) == 100
  {
    var w := WheelSectors;
    assert w[..1][..0] == [];
    assert ProbabilitySum(w[..1]) == 0;
    assert w[..2][..1] == w[..1];
    assert ProbabilitySum(w[..2]) == 0;
    assert w[..3][..2] == w[..2];
    assert ProbabilitySum(w[..3]) == 0;
    assert w[..4][..3] == w[..3];
    assert ProbabilitySum(w[..4]) == 0;
    assert w[..5][..4] == w[..4];
    assert ProbabilitySum(w[..5]) == 0;
    assert w[..|w| - 1] == w[..5];
  }

  /** For a draw in [0, 1), a draw of exactly 0 picks the first sector and any other draw
    * the last (`TURBO50`); the fallback after the loop is never reached. */
  lemma WheelChoice(random: real)
    requires 0.0 <= random < 1.0
    ensures ChosenFrom(WheelSectors, random, 0) == if random == 0.0 then 0 else 5
    ensures random <= ProbabilitySum(WheelSectors) as real
  {
    WheelSums();
    assert WheelSectors[..6] == WheelSectors;
    if random != 0.0 {
      assert ChosenFrom(WheelSectors, random, 5) == 5;
      assert ChosenFrom(WheelSectors, random, 4) == 5;
      assert ChosenFrom(WheelSectors, random, 3) == 5;
      assert ChosenFrom(WheelSectors, random, 2) == 5;
      assert ChosenFrom(WheelSectors, random, 1) == 5;
    }
  }

  // ---------------------------------------------------------------------
  // countdown

  /** Hours, minutes and seconds of a positive span in milliseconds, rounded down. */
  function TimeFields(timeLeft: int): (f: (nat, nat, nat))
    requires timeLeft > 0
    ensures f.1 < 60 && f.2 < 60
    ensures f.0 * 3600000 + f.1 * 60000 + f.2 * 1000 <= timeLeft < f.0 * 3600000 + f.1 * 60000 + f.2 * 1000 + 1000
  {
    var hours := timeLeft / 3600000;
    var minutes := (timeLeft % 3600000) / 60000;
    var seconds := (timeLeft % 60000) / 1000;
    NestedRemainder(timeLeft);
    (hours, minutes, seconds)
  }

  /** The remainder by a minute is the remainder, by a minute, of the remainder by an hour. */
  lemma NestedRemainder(t: int)
    ensures t % 60000 == (t % 3600000) % 60000
    ensures t == (t / 3600000) * 3600000 + ((t % 3600000) / 60000) * 60000 + (t % 3600000) % 60000
  {
    var q := t / 3600000;
    var r := t % 3600000;
    var m := r / 60000;
    var r2 := r % 60000;
    assert t == q * 3600000 + r;
    assert r == m * 60000 + r2;
    assert t == (q * 60 + m) * 60000 + r2;
    assert 0 <= r2 < 60000;
  }

  /** `H:MM:SS` with every field padded to two digits. */
  function Clock(h: nat, m: nat, s: nat): string {
    PadStart(NatToString(h), 2) + ":" + PadStart(NatToString(m), 2) + ":" + PadStart(NatToString(s), 2)
  }

  /** `formatTimeUntilNextSpin(nextSpinTime)` at time `now`. */
  function FormatTimeUntilNextSpin(nextSpinTime: int, now: int): (text: string)
    ensures nextSpinTime - now <= 0 ==> text == "00:00:00"
  {
    var timeLeft := nextSpinTime - now;
    if timeLeft <= 0 then "00:00:00"
    else
      var f := TimeFields(timeLeft);
      Clock(f.0, f.1, f.2)
  }

  /** The fields are the only ones that fit the span: any hours, minutes below 60 and
    * seconds below 60 whose total is within a second below the span give the same text. */
  lemma CountdownIsOnlyFit(nextSpinTime: int, now: int, h: nat, m: nat, s: nat)
    requires m < 60 && s < 60
    requires h * 3600000 + m * 60000 + s * 1000 <= nextSpinTime - now
    requires nextSpinTime - now < h * 3600000 + m * 60000 + s * 1000 + 1000
    ensures FormatTimeUntilNextSpin(nextSpinTime, now) == Clock(h, m, s)
  {
    var timeLeft := nextSpinTime - now;
    if timeLeft <= 0 {
      assert h == 0 && m == 0 && s == 0;
      ClockOfZero();
    } else {
      var f := TimeFields(timeLeft);
      FieldsUnique(timeLeft, f.0, f.1, f.2, h, m, s);
    }
  }

  /** A zero span reads as the text of the expired countdown. */
  lemma ClockOfZero()
    ensures Clock(0, 0, 0) == "00:00:00"
  {
    assert PadStart(NatToString(0), 2) == "00";
  }

  lemma FieldsUnique(t: int, h1: nat, m1: nat, s1: nat, h2: nat, m2: nat, s2: nat)
    requires m1 < 60 && s1 < 60 && m2 < 60 && s2 < 60
    requires h1 * 3600000 + m1 * 60000 + s1 * 1000 <= t < h1 * 3600000 + m1 * 60000 + s1 * 1000 + 1000
    requires h2 * 3600000 + m2 * 60000 + s2 * 1000 <= t < h2 * 3600000 + m2 * 60000 + s2 * 1000 + 1000
    ensures h1 == h2 && m1 == m2 && s1 == s2
  {
    assert m1 * 60000 + s1 * 1000 < 3600000;
    assert m2 * 60000 + s2 * 1000 < 3600000;
    assert (h1 - h2) * 3600000 < 3600000 && (h2 - h1) * 3600000 < 3600000;
    assert h1 == h2;
    assert (m1 - m2) * 60000 < 60000 && (m2 - m1) * 60000 < 60000;
  }

  /** Under 100 hours the countdown is exactly `HH:MM:SS`, eight characters. */
  lemma CountdownLength(nextSpinTime: int, now: int)
    requires 0 < nextSpinTime - now < 100 * 3600000
    ensures |FormatTimeUntilNextSpin(nextSpinTime, now)| == 8
  {
    var f := TimeFields(nextSpinTime - now);
    assert f.0 < 100;
    PadTwo(f.0);
    PadTwo(f.1);
    PadTwo(f.2);
    assert FormatTimeUntilNextSpin(nextSpinTime, now) == Clock(f.0, f.1, f.2);
  }

  // ---------------------------------------------------------------------
  // currency symbols

  /** The `symbols` table of `getCurrencySymbol`. */
  function CurrencySymbols(currency: string): Option<string> {
    match currency
    case "USD" => Some("$") case "EUR" => Some("€") case "GBP" => Some("£")
    case "JPY" => Some("¥") case "CNY" => Some("¥") case "RUB" => Some("₽")
    case "UAH" => Some("₴") case "BYN" => Some("Br") case "KZT" => Some("₸")
    case "UZS" => Some("soʻm") case "AMD" => Some("֏") case "GEL" => Some("₾")
    case "AZN" => Some("₼") case "TRY" => Some("₺") case "BRL" => Some("R$")
    case "MXN" => Some("$") case "INR" => Some("₹") case "KRW" => Some("₩")
    case "CAD" => Some("C$") case "AUD" => Some("A$") case "PLN" => Some("zł")
    case "CZK" => Some("Kč") case "HUF" => Some("Ft") case "RON" => Some("lei")
    case "BGN" => Some("лв") case "HRK" => Some("kn") case "DKK" => Some("kr")
    case "NOK" => Some("kr") case "SEK" => Some("kr") case "CHF" => Some("Fr")
    case "SGD" => Some("S$") case "HKD" => Some("HK$") case "NZD" => Some("NZ$")
    case "ZAR" => Some("R") case "THB" => Some("฿") case "MYR" => Some("RM")
    case "IDR" => Some("Rp") case "PHP" => Some("₱") case "VND" => Some("₫")
    case _ => None
  }

  /** `getCurrencySymbol(currency)`: the listed symbol, otherwise the code itself. */
  function GetCurrencySymbol(currency: string): (symbol: string)
    ensures CurrencySymbols(currency).Some? ==> symbol == CurrencySymbols(currency).value
    ensures CurrencySymbols(currency).None? ==> symbol == currency
  {
    match CurrencySymbols(currency)
    case Some(s) => if s != "" then s else currency
    case None => currency
  }

  /** Some entries, and an unlisted code. */
  lemma CurrencySymbolExamples()
    ensures GetCurrencySymbol("EUR") == "€" && GetCurrencySymbol("TRY") == "₺"
    ensures GetCurrencySymbol("MXN") == GetCurrencySymbol("USD") == "$"
    ensures GetCurrencySymbol("XYZ") == "XYZ"
  {
  }
}
