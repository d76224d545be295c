/**
 * The signal processor (src/signals.py): validation of an inbound trading
 * signal, its normalisation, and suppression of a signal identical to the
 * last one processed for the same symbol.
 */
module Signals {
  import opened Wrappers
  import opened Text
  import opened Json

  const RequiredFields: seq<string> := ["action", "symbol", "trailing_stop"]
  const ActionValues: seq<string> := ["buy", "sell"]
  const MinTrailing: real := 0.001
  const MaxTrailing: real := 0.2
  const SymbolBlacklist: seq<string> := ["SRMEUR"]

  /** `_normalize_symbol`: upper-case, then every `-` and every `/` removed. */
  function NormalizeSymbol(symbol: string): (r: string)
    ensures '-' !in r && '/' !in r
    ensures forall i :: 0 <= i < |r| ==> !IsLowerLetter(r[i])
    ensures |r| <= |symbol|
    ensures '-' !in symbol && '/' !in symbol ==> r == Upper(symbol)
  {
    var up := Upper(symbol);
    var noDash := RemoveChar(up, '-');
    var r := RemoveChar(noDash, '/');
    assert forall i :: 0 <= i < |r| ==> r[i] in noDash && r[i] in up;
    UpperKeepsNonLetter(symbol, '-');
    UpperKeepsNonLetter(symbol, '/');
    if '-' !in symbol && '/' !in symbol then
      RemoveAbsent(up, '-');
      RemoveAbsent(up, '/');
      r
    else r
  }

  /** Normalising works piece by piece: a symbol normalises to its parts' normal forms, joined. */
  lemma NormalizeSymbolConcat(a: string, b: string)
    ensures NormalizeSymbol(a + b) == NormalizeSymbol(a) + NormalizeSymbol(b)
  {
    UpperConcat(a, b);
    RemoveConcat(Upper(a), Upper(b), '-');
    RemoveConcat(RemoveChar(Upper(a), '-'), RemoveChar(Upper(b), '-'), '/');
  }

  /** Normalising twice is normalising once. */
  lemma NormalizeSymbolIdempotent(symbol: string)
    ensures NormalizeSymbol(NormalizeSymbol(symbol)) == NormalizeSymbol(symbol)
  {
    var n := NormalizeSymbol(symbol);
    UpperOfUpper(n);
    RemoveAbsent(n, '-');
    RemoveAbsent(n, '/');
  }

  /** Two spellings of the blacklisted pair normalise onto it. */
  lemma LowerDashSpelling()
    ensures NormalizeSymbol("srm-eur") == "SRMEUR"
  {
    UpperSrmDash();
    DashRemovedSrm();
    NoSlashSrm();
  }

  lemma SlashSpelling()
    ensures NormalizeSymbol("SRM/EUR") == "SRMEUR"
  {
    UpperSrmSlash();
    NoDashSrmSlash();
    SlashRemovedSrm();
  }

  lemma UpperSrmDash() ensures Upper("srm-eur") == "SRM-EUR" {}
  lemma UpperSrmSlash() ensures Upper("SRM/EUR") == "SRM/EUR" {}

  lemma DashRemovedSrm() ensures RemoveChar("SRM-EUR", '-') == "SRMEUR" {
    assert "SRM-EUR" == "SRM" + ['-'] + "EUR";
    RemoveSeparator("SRM", "EUR", '-');
  }

  lemma NoSlashSrm() ensures RemoveChar("SRMEUR", '/') == "SRMEUR" {
    RemoveAbsent("SRMEUR", '/');
  }

  lemma NoDashSrmSlash() ensures RemoveChar("SRM/EUR", '-') == "SRM/EUR" {
    RemoveAbsent("SRM/EUR", '-');
  }

  lemma SlashRemovedSrm() ensures RemoveChar("SRM/EUR", '/') == "SRMEUR" {
    assert "SRM/EUR" == "SRM" + ['/'] + "EUR";
    RemoveSeparator("SRM", "EUR", '/');
  }

  /** Python's `float(v)`: None when it raises. */
  function AsFloat(v: Value): (r: Option<real>)
    ensures v.Num? ==> r == Some(v.x)
    ensures v.Bool? ==> r == Some(if v.b then 1.0 else 0.0)
    ensures v.Null? ==> r.None?
    ensures v.Str? ==> r == ParseFloat(v.s)
    ensures v.Str? && ParseInt(v.s).Some? ==> r == Some(ParseInt(v.s).value as real)
  {
    match v
    case Num(x) => Some(x)
    case Bool(b) => Some(if b then 1.0 else 0.0)
    case Str(s) =>
      if ParseInt(s).Some? then FloatAgreesWithInt(s); ParseFloat(s) else ParseFloat(s)
    case Null => None
  }

  /** What `_validate_signal` does: returns True, returns False, or raises. */
  datatype Verdict = Accept | Reject | Raise

  /** The conditions under which a signal is valid, stated field by field. */
  predicate Acceptable(signal: Object) {
    && (forall f :: f in RequiredFields ==> f in signal)
    && signal["action"].Str? && Lower(signal["action"].s) in ActionValues
    && AsFloat(signal["trailing_stop"]).Some?
    && MinTrailing <= AsFloat(signal["trailing_stop"]).value <= MaxTrailing
    && signal["symbol"].Str? && NormalizeSymbol(signal["symbol"].s) !in SymbolBlacklist
  }

  /** `_validate_signal`: required fields, action, trailing range, blacklist, in that order. */
  function ValidateSignal(signal: Object): (v: Verdict)
    ensures v == Accept <==> Acceptable(signal)
    ensures ("action" !in signal || "symbol" !in signal || "trailing_stop" !in signal) ==> v == Reject
    ensures v == Raise ==> (!Acceptable(signal)
      && (!signal["action"].Str? || AsFloat(signal["trailing_stop"]).None? || !signal["symbol"].Str?))
  {
    if !(forall f :: f in RequiredFields ==> f in signal) then Reject
    else if !signal["action"].Str? then Raise
    else if Lower(signal["action"].s) !in ActionValues then Reject
    else if AsFloat(signal["trailing_stop"]).None? then Raise
    else if !(MinTrailing <= AsFloat(signal["trailing_stop"]).value <= MaxTrailing) then Reject
    else if !signal["symbol"].Str? then Raise
    else if NormalizeSymbol(signal["symbol"].s) in SymbolBlacklist then Reject
    else Accept
  }

  /** `srm-eur` and `SRM/EUR` are refused like `SRMEUR`, whatever else the signal says. */
  lemma BlacklistedPairRejected(signal: Object)
    requires "symbol" in signal && (signal["symbol"] == Str("srm-eur") || signal["symbol"] == Str("SRM/EUR"))
    ensures ValidateSignal(signal) != Accept
  {
    LowerDashSpelling();
    SlashSpelling();
  }

  /** The record `_normalize_signal` builds. */
  datatype NormalizedSignal = NormalizedSignal(
    action: string, symbol: string, trailingStop: real, timestamp: real, takeProfit: Option<real>)

  /**
   * `_normalize_signal` for a validated signal at clock `now`; None when
   * `float(take_profit)` raises.
   */
  function NormalizeSignal(raw: Object, now: real): (r: Option<NormalizedSignal>)
    requires Acceptable(raw)
    ensures r.None? <==> "take_profit" in raw && AsFloat(raw["take_profit"]).None?
    ensures r.Some? ==> r.value.action in ActionValues && r.value.action == Lower(raw["action"].s)
    ensures r.Some? ==> r.value.symbol == NormalizeSymbol(raw["symbol"].s)
    ensures r.Some? ==> MinTrailing <= r.value.trailingStop <= MaxTrailing && r.value.timestamp == now
    ensures r.Some? ==> (r.value.takeProfit.None? <==> "take_profit" !in raw)
    ensures r.Some? ==> r.value.trailingStop == AsFloat(raw["trailing_stop"]).value
    ensures r.Some? && "take_profit" in raw ==> r.value.takeProfit == AsFloat(raw["take_profit"])
  {
    var takeProfit := if "take_profit" in raw then AsFloat(raw["take_profit"]) else None;
    if "take_profit" in raw && takeProfit.None? then None
    else Some(NormalizedSignal(
      Lower(raw["action"].s),
      NormalizeSymbol(raw["symbol"].s),
      AsFloat(raw["trailing_stop"]).value,
      now,
      takeProfit))
  }

  /** The result of `process_signal` and the new `_last_processed` table. */
  datatype Processed = Processed(signal: Option<NormalizedSignal>, last: map<string, NormalizedSignal>)

  /** `process_signal` on the table `last`, as a value. */
  function Process(last: map<string, NormalizedSignal>, raw: Object, now: real): (p: Processed)
    ensures ValidateSignal(raw) != Accept ==> p == Processed(None, last)
    ensures p.signal.Some? ==> (Acceptable(raw) && Some(p.signal.value) == NormalizeSignal(raw, now)
      && !(p.signal.value.symbol in last && last[p.signal.value.symbol] == p.signal.value))
    ensures p.signal.Some? ==> p.last == last[p.signal.value.symbol := p.signal.value]
    ensures forall sym :: sym in last && (p.signal.None? || sym != p.signal.value.symbol) ==> sym in p.last && p.last[sym] == last[sym]
    ensures ValidateSignal(raw) == Accept && NormalizeSignal(raw, now).Some?
      && !(NormalizeSignal(raw, now).value.symbol in last
           && last[NormalizeSignal(raw, now).value.symbol] == NormalizeSignal(raw, now).value)
      ==> p.signal == NormalizeSignal(raw, now)
    ensures p.signal.None? ==> p.last == last
  {
    if ValidateSignal(raw) != Accept then Processed(None, last)
    else match NormalizeSignal(raw, now)
      case None => Processed(None, last)
      case Some(n) =>
        if n.symbol in last && last[n.symbol] == n then Processed(None, last)
        else Processed(Some(n), last[n.symbol := n])
  }

  /** A signal that went through is suppressed if it arrives again with the same timestamp, never with another one. */
  lemma RepeatSuppressedOnlyWithSameTimestamp(last: map<string, NormalizedSignal>, raw: Object, now: real, later: real)
    requires Process(last, raw, now).signal.Some?
    ensures Process(Process(last, raw, now).last, raw, now).signal.None?
    ensures later != now ==> Process(Process(last, raw, now).last, raw, later).signal.Some?
  {
    var n := Process(last, raw, now).signal.value;
    assert NormalizeSignal(raw, later).Some? && NormalizeSignal(raw, later).value.symbol == n.symbol;
  }

  class SignalProcessor {
    var initialized: bool
    /** `_last_processed`: the last signal let through, per normalised symbol. */
    var lastProcessed: map<string, NormalizedSignal>

    constructor ()
      ensures !initialized && lastProcessed == map[]
    {
      initialized := false;
      lastProcessed := map[];
    }

    /** `initialize` */
    method Initialize()
      modifies this
      ensures initialized && lastProcessed == old(lastProcessed)
    {
      if !initialized {
        initialized := true;
      }
    }

    /** `_is_duplicate`: equal to the last signal of its symbol; otherwise remembered. */
    method IsDuplicate(signal: NormalizedSignal) returns (dup: bool)
      modifies this
      ensures dup <==> signal.symbol in old(lastProcessed) && old(lastProcessed)[signal.symbol] == signal
      ensures lastProcessed == if dup then old(lastProcessed) else old(lastProcessed)[signal.symbol := signal]
      ensures initialized == old(initialized)
    {
      if signal.symbol in lastProcessed && lastProcessed[signal.symbol] == signal {
        return true;
      }
      lastProcessed := lastProcessed[signal.symbol := signal];
      return false;
    }

    /** `process_signal` at clock `now`: None for invalid, duplicate or failing signals. */
    method ProcessSignal(raw: Object, now: real) returns (r: Option<NormalizedSignal>)
      modifies this
      ensures r == Process(old(lastProcessed), raw, now).signal
      ensures lastProcessed == Process(old(lastProcessed), raw, now).last
      ensures initialized == old(initialized)
    {
      var verdict := ValidateSignal(raw);
      if verdict != Accept {
        return None;
      }
      var normalized := NormalizeSignal(raw, now);
      if normalized.None? {
        return None;
      }
      var dup := IsDuplicate(normalized.value);
      if dup {
        return None;
      }
      return normalized;
    }
  }
}
