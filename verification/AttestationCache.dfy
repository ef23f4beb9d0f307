/**
 The cache of the last attestation hash.

 A refresh holds the state's lock to its end, so refreshes follow one another.
 The settings may differ from call to call. The clock is read at the start of a
 refresh, and again when the verification has succeeded.
 */
module AttestationCache {
  import opened Prelude
  import opened Encoding

  // ---- The form of a hash ------------------------------------------------------------------------

  /** `normalize_tee_report_hash`: `0x` and 64 lower-case digits. */
  function NormalizeTeeReportHash(isSpace: char -> bool, raw: string): Result<string> {
    var t := Trim(isSpace, raw);
    var s := if "0x" <= t then t[2..] else t;
    var bytes := DecodeHex(s);
    if bytes.None? then Err("hex")
    else if |bytes.value| != 32 then Err("length")
    else Ok("0x" + EncodeHex(bytes.value))
  }

  /** The 32 bytes a text stands for, with or without `0x`. */
  function HashBytes(isSpace: char -> bool, raw: string): Option<Bytes> {
    var t := Trim(isSpace, raw);
    DecodeHex(if "0x" <= t then t[2..] else t)
  }

  predicate Canonical(hash: string) {
    |hash| == 66 && "0x" <= hash && AllHex(hash[2..]) && forall i :: 2 <= i < 66 ==> !('A' <= hash[i] <= 'F')
  }

  lemma {:induction false} EncodedIsLower(b: Bytes)
    ensures AllHex(EncodeHex(b)) && forall i :: 0 <= i < |EncodeHex(b)| ==> !('A' <= EncodeHex(b)[i] <= 'F')
  {
    if b != [] {
      EncodedIsLower(b[..|b| - 1]);
    }
  }

  /** Normalizing keeps the bytes, gives the canonical text, and changes nothing the second time. */
  lemma NormalizeKeepsBytes(isSpace: char -> bool, raw: string)
    requires SaneSpace(isSpace)
    ensures var r := NormalizeTeeReportHash(isSpace, raw);
            && (r.Ok? <==> HashBytes(isSpace, raw).Some? && |HashBytes(isSpace, raw).value| == 32)
            && (r.Ok? ==> Canonical(r.value) && HashBytes(isSpace, r.value) == HashBytes(isSpace, raw)
                          && NormalizeTeeReportHash(isSpace, r.value) == r)
  {
    hide DecodeHex, EncodeHex, Trim;
    var r := NormalizeTeeReportHash(isSpace, raw);
    if r.Ok? {
      var b := HashBytes(isSpace, raw).value;
      EncodedIsLower(b);
      assert r.value[2..] == EncodeHex(b);
      assert r.value[|r.value| - 1] == EncodeHex(b)[63];
      TrimNothing(isSpace, r.value);
      DecodeEncoded(b);
    }
  }

  // ---- The state ----------------------------------------------------------------------------------------

  datatype Status =
    | NotConfigured | NrasDisabled | UrlMissing | VerifiedOk | CachedTtl | CachedTtlAfterFailure
    | InputsMissingOrExpiredCache | NrasFailed

  datatype Ui = Ui(
    enabled: bool,  // mode: "nras" rather than "disabled"
    verified: Option<bool>,
    status: Status,
    teeReportHash: Option<string>,
    lastError: Option<string>,
    verifiedAt: Option<u64>,
    expiresAt: Option<u64>)

  datatype Settings = Settings(enabled: bool, url: string, certTtlDays: u64, quote: string, signature: string)

  function TtlSecs(s: Settings): u64 {
    if s.certTtlDays * 86400 < U64_LIMIT then s.certTtlDays * 86400 else U64_LIMIT - 1
  }

  /** The time to live is that many days of 24 hours, unless this exceeds 64 bits. */
  lemma TtlIs(s: Settings)
    ensures s.certTtlDays <= 213503982334601 ==> TtlSecs(s) == s.certTtlDays * (24 * 60 * 60)
    ensures s.certTtlDays > 213503982334601 ==> TtlSecs(s) == 0xFFFF_FFFF_FFFF_FFFF
  {
  }

  /** One refresh, as a history remembers it. */
  datatype Event =
    | Verified(hash: string, at: u64)
    | Disabled
    | Other

  datatype Good = Good(hash: string, at: u64)

  /** The last verification, unless a disabling refresh came after it. */
  function LastGood(history: seq<Event>): Option<Good>
    decreases |history|
  {
    if history == [] then None
    else match history[|history| - 1]
      case Verified(hash, at) => Some(Good(hash, at))
      case Disabled => None
      case Other => LastGood(history[..|history| - 1])
  }

  /** A hash was verified at a time, and nothing disabled attestation or replaced the hash since. */
  ghost predicate Stands(history: seq<Event>, hash: string, at: u64) {
    exists i :: 0 <= i < |history| && history[i] == Verified(hash, at)
                && forall j :: i < j < |history| ==> history[j].Other?
  }

  lemma {:induction false} LastGoodStands(history: seq<Event>, hash: string, at: u64)
    ensures LastGood(history) == Some(Good(hash, at)) <==> Stands(history, hash, at)
    decreases |history|
  {
    if history != [] {
      var front, last := history[..|history| - 1], history[|history| - 1];
      LastGoodStands(front, hash, at);
      if last.Other? {
        if Stands(front, hash, at) {
          var i :| 0 <= i < |front| && front[i] == Verified(hash, at)
                   && forall j :: i < j < |front| ==> front[j].Other?;
          assert history[i] == Verified(hash, at);
        }
        if Stands(history, hash, at) {
          var i :| 0 <= i < |history| && history[i] == Verified(hash, at)
                   && forall j :: i < j < |history| ==> history[j].Other?;
          assert i < |front| && front[i] == history[i];
          forall j | i < j < |front| ensures front[j].Other? {
            assert front[j] == history[j];
          }
        }
      } else if last == Verified(hash, at) {
        assert history[|history| - 1] == Verified(hash, at);
      }
    }
  }

  /** The answer of the attestation service: a raw hash, or an error. */
  type Flow = Result<string>

  /** A call that reaches the service and gets an acceptable hash back. */
  predicate Fulfilled(isSpace: char -> bool, s: Settings, flow: Flow) {
    && s.enabled && Trim(isSpace, s.url) != "" && Trim(isSpace, s.quote) != "" && Trim(isSpace, s.signature) != ""
    && flow.Ok? && NormalizeTeeReportHash(isSpace, flow.value).Ok?
  }

  datatype Call = Call(settings: Settings, now: u64, later: u64, flow: Flow)

  function EventOf(isSpace: char -> bool, c: Call): Event {
    if !c.settings.enabled then Disabled
    else if Fulfilled(isSpace, c.settings, c.flow)
    then Verified(NormalizeTeeReportHash(isSpace, c.flow.value).value, c.later)
    else Other
  }

  /** What a call returns after a given history. */
  function Answer(isSpace: char -> bool, history: seq<Event>, c: Call): string {
    if Fulfilled(isSpace, c.settings, c.flow) then NormalizeTeeReportHash(isSpace, c.flow.value).value
    else if !c.settings.enabled || Trim(isSpace, c.settings.url) == "" then ""
    else var usable := Usable(LastGood(history), c.now, TtlSecs(c.settings));
         if usable.Some? then usable.value.hash else ""
  }

  /** The cached hash, if it is younger than the time to live. */
  function Usable(good: Option<Good>, now: u64, ttl: u64): Option<Good> {
    if good.Some? && SaturatingSub(now, good.value.at) < ttl then good else None
  }

  /** Verified is shown exactly when there is a hash, and then the same hash. */
  predicate Agrees(ui: Ui, result: string) {
    && (ui.verified == Some(true) <==> result != "")
    && (result != "" ==> ui.teeReportHash == Some(result))
  }

  class NrasRuntimeState {
    const isSpace: char -> bool
    var ui: Ui
    var cachedGoodHash: Option<string>
    var cachedVerifiedAt: Option<u64>
    ghost var history: seq<Event>

    constructor (isSpace: char -> bool)
      requires SaneSpace(isSpace)
      ensures Valid() && history == [] && this.isSpace == isSpace
    {
      this.isSpace := isSpace;
      ui := Ui(false, None, NotConfigured, None, None, None, None);
      cachedGoodHash, cachedVerifiedAt, history := None, None, [];
    }

    function Cached(): Option<Good>
      reads this
    {
      if cachedGoodHash.Some? && cachedVerifiedAt.Some?
      then Some(Good(cachedGoodHash.value, cachedVerifiedAt.value)) else None
    }

    ghost predicate Valid()
      reads this
    {
      && SaneSpace(isSpace)
      && (cachedGoodHash.Some? <==> cachedVerifiedAt.Some?)
      && Cached() == LastGood(history)
      && (Cached().Some? ==> Canonical(Cached().value.hash))
    }

    /** What the interface shows agrees with the result. */
    ghost predicate Shows(result: string)
      reads this
    {
      Agrees(ui, result)
    }

    /** `maybe_use_cache_on_failure`. */
    method MaybeUseCacheOnFailure(now: u64, ttl: u64, error: string) returns (result: string)
      requires Valid()
      modifies this`ui
      ensures Valid() && Shows(result)
      ensures var usable := Usable(Cached(), now, ttl); result == if usable.Some? then usable.value.hash else ""
    {
      if cachedGoodHash.Some? && cachedVerifiedAt.Some? {
        var h, t := cachedGoodHash.value, cachedVerifiedAt.value;
        if SaturatingSub(now, t) < ttl {
          var expires := SaturatingAdd64(t, ttl);
          ui := Ui(true, Some(true), CachedTtlAfterFailure, Some(h), Some(error), Some(t), Some(expires));
          return h;
        }
      }
      ui := Ui(true, Some(false), NrasFailed, None, Some(error), ui.verifiedAt, ui.expiresAt);
      result := "";
    }

    ghost method Remember(e: Event)
      modifies this`history
      ensures history == old(history) + [e]
      ensures LastGood(history) == (match e
                                    case Verified(hash, at) => Some(Good(hash, at))
                                    case Disabled => None
                                    case Other => LastGood(old(history)))
    {
      history := history + [e];
      assert history[..|history| - 1] == old(history);
    }

    /** A refresh without a quote or a signature. */
    method WithoutInputs(now: u64, ttl: u64) returns (result: string)
      requires Valid()
      modifies this`ui
      ensures Valid() && Shows(result)
      ensures var usable := Usable(Cached(), now, ttl); result == if usable.Some? then usable.value.hash else ""
    {
      if cachedGoodHash.Some? && cachedVerifiedAt.Some? {
        var h, t := cachedGoodHash.value, cachedVerifiedAt.value;
        if SaturatingSub(now, t) < ttl {
          ui := Ui(true, Some(true), CachedTtl, Some(h), Some("no inputs"), Some(t), Some(SaturatingAdd64(t, ttl)));
          return h;
        }
      }
      ui := Ui(true, Some(false), InputsMissingOrExpiredCache, None, Some("no inputs"), ui.verifiedAt, ui.expiresAt);
      result := "";
    }

    /**
     One refresh; `c.now` is the time at its start and `c.later` the time when the
     service has answered. What it returns and what the interface shows agree.
     */
    method Refresh(c: Call) returns (result: string)
      requires Valid()
      modifies this
      ensures Valid() && Shows(result)
      ensures result == Answer(isSpace, old(history), c) && (result != "" ==> Canonical(result))
      ensures history == old(history) + [EventOf(isSpace, c)]
    {
      hide NormalizeTeeReportHash, Canonical, Trim, LastGood, SaneSpace;
      var s, ttl := c.settings, TtlSecs(c.settings);
      if !s.enabled {
        ui := Ui(false, None, NrasDisabled, ui.teeReportHash, None, None, None);
        cachedGoodHash := None;
        cachedVerifiedAt := None;
        Remember(Disabled);
        return "";
      }
      if Trim(isSpace, s.url) == "" {
        ui := Ui(true, Some(false), UrlMissing, None, Some("empty url"), None, None);
        Remember(Other);
        return "";
      }
      if Trim(isSpace, s.quote) == "" || Trim(isSpace, s.signature) == "" {
        result := WithoutInputs(c.now, ttl);
        Remember(Other);
        return;
      }
      var normalized := if c.flow.Ok? then NormalizeTeeReportHash(isSpace, c.flow.value) else Err(c.flow.error);
      if normalized.Ok? {
        result := normalized.value;
        NormalizeKeepsBytes(isSpace, c.flow.value);
        CanonicalIsNotEmpty(result);
        cachedGoodHash := Some(result);
        cachedVerifiedAt := Some(c.later);
        ui := Ui(true, Some(true), VerifiedOk, Some(result), None, Some(c.later), Some(SaturatingAdd64(c.later, ttl)));
        Remember(Verified(result, c.later));
      } else {
        result := MaybeUseCacheOnFailure(c.now, ttl, normalized.error);
        Remember(Other);
      }
    }
  }

  lemma CanonicalIsNotEmpty(hash: string)
    requires Canonical(hash)
    ensures hash != ""
  {
  }

  // ---- Whole runs --------------------------------------------------------------------------------

  function Events(isSpace: char -> bool, calls: seq<Call>): (e: seq<Event>)
    ensures |e| == |calls| && forall i :: 0 <= i < |calls| ==> e[i] == EventOf(isSpace, calls[i])
  {
    seq(|calls|, i requires 0 <= i < |calls| => EventOf(isSpace, calls[i]))
  }

  /** The clock never runs backwards. */
  ghost predicate Monotone(calls: seq<Call>) {
    && (forall i :: 0 <= i < |calls| ==> calls[i].now <= calls[i].later)
    && (forall i, j :: 0 <= i < j < |calls| ==> calls[i].later <= calls[j].now)
  }

  /**
   Call k verified the hash r, every call after it up to call i left attestation
   enabled and verified nothing else, and at call i the verification was younger
   than the time to live then in force.
   */
  ghost predicate Justifies(isSpace: char -> bool, calls: seq<Call>, k: nat, i: nat, r: string)
    requires i < |calls|
  {
    && k <= i && EventOf(isSpace, calls[k]) == Verified(r, calls[k].later)
    && (forall j :: k < j <= i ==> EventOf(isSpace, calls[j]).Other?)
    && (k < i ==> calls[i].now - calls[k].later < TtlSecs(calls[i].settings))
  }

  ghost predicate Justified(isSpace: char -> bool, calls: seq<Call>, i: nat, r: string)
    requires i < |calls|
  {
    exists k: nat :: Justifies(isSpace, calls, k, i, r)
  }

  /** A hash that is returned was verified in the same call, or recently enough with nothing against it since. */
  lemma ReturnedIsJustified(isSpace: char -> bool, calls: seq<Call>, i: nat, r: string)
    requires i < |calls| && Monotone(calls) && r != ""
    requires Answer(isSpace, Events(isSpace, calls[..i]), calls[i]) == r
    ensures Justified(isSpace, calls, i, r)
  {
    hide NormalizeTeeReportHash, Trim;
    var history := Events(isSpace, calls[..i]);
    if EventOf(isSpace, calls[i]).Verified? {
      assert Justifies(isSpace, calls, i, i, r);
    } else {
      var good := LastGood(history).value;
      LastGoodStands(history, good.hash, good.at);
      var k :| 0 <= k < i && history[k] == Verified(good.hash, good.at) && forall j :: k < j < i ==> history[j].Other?;
      assert calls[..i][k] == calls[k];
      forall j | k < j <= i ensures EventOf(isSpace, calls[j]).Other? {
        if j < i {
          assert history[j].Other? && calls[..i][j] == calls[j];
        }
      }
      assert Justifies(isSpace, calls, k, i, r);
    }
  }

  /** And a hash that is justified is returned, unless the service's address is missing. */
  lemma JustifiedIsReturned(isSpace: char -> bool, calls: seq<Call>, k: nat, i: nat, r: string)
    requires i < |calls| && Monotone(calls) && Justifies(isSpace, calls, k, i, r)
    requires k < i ==> Trim(isSpace, calls[i].settings.url) != ""
    ensures Answer(isSpace, Events(isSpace, calls[..i]), calls[i]) == r
  {
    hide NormalizeTeeReportHash, Trim;
    if k < i {
      var history := Events(isSpace, calls[..i]);
      assert calls[..i][k] == calls[k];
      assert history[k] == Verified(r, calls[k].later);
      forall j | k < j < i ensures history[j].Other? {
        assert calls[..i][j] == calls[j];
      }
      assert Stands(history, r, calls[k].later);
      LastGoodStands(history, r, calls[k].later);
    }
  }

  /**
   Any run of refreshes: every result is the answer to its call, empty or
   justified; a justified hash is returned unless the service's address is
   missing; and after every call the interface agrees with its result.
   */
  method Run(isSpace: char -> bool, calls: seq<Call>)
    returns (state: NrasRuntimeState, results: seq<string>, uis: seq<Ui>)
    requires SaneSpace(isSpace) && Monotone(calls)
    ensures |results| == |uis| == |calls| && state.Valid()
    ensures forall i :: 0 <= i < |calls| ==> Agrees(uis[i], results[i])
    ensures forall i :: 0 <= i < |calls| ==> results[i] == Answer(isSpace, Events(isSpace, calls[..i]), calls[i])
    ensures forall i :: 0 <= i < |calls| && results[i] != "" ==> Justified(isSpace, calls, i, results[i])
    ensures forall k: nat, i: nat, r ::
              i < |calls| && Justifies(isSpace, calls, k, i, r)
              && (k == i || Trim(isSpace, calls[i].settings.url) != "")
              ==> results[i] == r
  {
    hide LastGood, Justified, Justifies, Answer, SaneSpace;
    state := new NrasRuntimeState(isSpace);
    results, uis := [], [];
    for n := 0 to |calls|
      invariant fresh(state) && state.isSpace == isSpace && state.Valid()
      invariant state.history == Events(isSpace, calls[..n]) && |results| == |uis| == n
      invariant forall i :: 0 <= i < n ==> Agrees(uis[i], results[i])
      invariant forall i :: 0 <= i < n ==> results[i] == Answer(isSpace, Events(isSpace, calls[..i]), calls[i])
      invariant forall i :: 0 <= i < n && results[i] != "" ==> Justified(isSpace, calls, i, results[i])
    {
      var result := state.Refresh(calls[n]);
      if result != "" {
        ReturnedIsJustified(isSpace, calls, n, result);
      }
      assert calls[..n + 1] == calls[..n] + [calls[n]];
      assert state.history == Events(isSpace, calls[..n + 1]);
      results, uis := results + [result], uis + [state.ui];
    }
    forall k: nat, i: nat, r | i < |calls| && Justifies(isSpace, calls, k, i, r)
                               && (k == i || Trim(isSpace, calls[i].settings.url) != "")
      ensures results[i] == r
    {
      JustifiedIsReturned(isSpace, calls, k, i, r);
    }
  }

  // ---- Freshness when the answer arrives ----------------------------------------------------------------

  /** The verification of call k is still younger than the time to live when call i returns. */
  predicate FreshAtReturn(calls: seq<Call>, k: nat, i: nat)
    requires k < |calls| && i < |calls|
  {
    calls[i].later - calls[k].later < TtlSecs(calls[i].settings)
  }

  /**
   Freshness is measured at the start of a call. A cached hash is still fresh when
   it is returned if and only if the call took less time than the hash had left.
   */
  lemma StillFreshIff(isSpace: char -> bool, calls: seq<Call>, k: nat, i: nat, r: string)
    requires k < i < |calls| && Monotone(calls) && Justifies(isSpace, calls, k, i, r)
    ensures var age, duration := calls[i].now - calls[k].later, calls[i].later - calls[i].now;
            && 0 <= age < TtlSecs(calls[i].settings) && 0 <= duration
            && (FreshAtReturn(calls, k, i) <==> duration < TtlSecs(calls[i].settings) - age)
  {
  }

  /** A failing call that starts in the last second and takes one returns a hash that has expired. */
  lemma MayExpireMeanwhile(isSpace: char -> bool, b: Bytes32) returns (calls: seq<Call>, hash: string)
    requires SaneSpace(isSpace)
    ensures |calls| == 2 && Monotone(calls) && Justifies(isSpace, calls, 0, 1, hash)
    ensures Answer(isSpace, Events(isSpace, calls[..1]), calls[1]) == hash != ""
    ensures !FreshAtReturn(calls, 0, 1)
  {
    hide NormalizeTeeReportHash, Trim, LastGood, Answer;
    hash := "0x" + EncodeHex(b);
    var s := Settings(true, "u", 1, "q", "s");
    calls := [Call(s, 0, 0, Ok(hash)), Call(s, 86399, 86400, Err("down"))];
    TrimNothing(isSpace, "u");
    TrimNothing(isSpace, "q");
    TrimNothing(isSpace, "s");
    AlreadyNormal(isSpace, b);
    assert EventOf(isSpace, calls[0]) == Verified(hash, 0) && EventOf(isSpace, calls[1]).Other?;
    assert Justifies(isSpace, calls, 0, 1, hash);
    JustifiedIsReturned(isSpace, calls, 0, 1, hash);
  }

  lemma AlreadyNormal(isSpace: char -> bool, b: Bytes32)
    requires SaneSpace(isSpace)
    ensures NormalizeTeeReportHash(isSpace, "0x" + EncodeHex(b)) == Ok("0x" + EncodeHex(b))
  {
    hide EncodeHex, DecodeHex;
    var hash := "0x" + EncodeHex(b);
    EncodedIsLower(b);
    assert hash[2..] == EncodeHex(b) && hash[|hash| - 1] == EncodeHex(b)[63];
    TrimNothing(isSpace, hash);
    DecodeEncoded(b);
  }
}
