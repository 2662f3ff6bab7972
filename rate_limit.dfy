/// A fixed-window rate limiter over one process-wide map from an
/// identifier (a client IP, say) to its request count and the end of its
/// window, shared by every limiter configuration; and the extraction of
/// the client's IP from proxy headers.
module RateLimit {
  import opened Js
  import opened Text

  datatype Config = Config(maxRequests: int, windowMs: int)

  /** The configuration used when none is given. */
  const DefaultConfig := Config(5, 60000)

  /** An entry of the store: requests counted in the window ending at `resetTime` (ms). */
  datatype Entry = Entry(count: int, resetTime: int)

  /** What `check` returns. */
  datatype Verdict = Verdict(success: bool, remaining: int, resetTime: int)

  /** The entry still in force at `now`: an entry lapses only once `now`
      is past its reset time. */
  function Live(entries: map<string, Entry>, id: string, now: int): Option<Entry> {
    if id in entries && now <= entries[id].resetTime then Some(entries[id]) else None
  }

  /** The verdict and the new store of one check. */
  function CheckSpec(entries: map<string, Entry>, config: Config, id: string, now: int): (Verdict, map<string, Entry>) {
    match Live(entries, id, now)
    case None =>
      var resetTime := now + config.windowMs;
      (Verdict(true, config.maxRequests - 1, resetTime), entries[id := Entry(1, resetTime)])
    case Some(e) =>
      if e.count >= config.maxRequests then (Verdict(false, 0, e.resetTime), entries)
      else (Verdict(true, config.maxRequests - (e.count + 1), e.resetTime), entries[id := Entry(e.count + 1, e.resetTime)])
  }

  /** Every stored count is between 1 and `max`. */
  predicate Bounded(entries: map<string, Entry>, max: int) {
    forall id :: id in entries ==> 1 <= entries[id].count <= max
  }

  /** With at least one request allowed, no check ever stores a count above
      the maximum: the bound is an invariant of the store. */
  lemma CheckKeepsBound(entries: map<string, Entry>, config: Config, id: string, now: int)
    requires config.maxRequests >= 1 && Bounded(entries, config.maxRequests)
    ensures Bounded(CheckSpec(entries, config, id, now).1, config.maxRequests)
  {
  }

  /** A check never touches another identifier's entry. */
  lemma CheckIsolated(entries: map<string, Entry>, config: Config, id: string, now: int, other: string)
    requires other != id
    ensures var e' := CheckSpec(entries, config, id, now).1;
      (other in e' <==> other in entries) && (other in entries ==> e'[other] == entries[other])
  {
  }

  /** The first request of an identifier, or the first after its window
      lapsed, succeeds and opens a window of one request. */
  lemma FirstRequestOpensWindow(entries: map<string, Entry>, config: Config, id: string, now: int)
    requires id !in entries || now > entries[id].resetTime
    ensures var (v, e') := CheckSpec(entries, config, id, now);
      && v == Verdict(true, config.maxRequests - 1, now + config.windowMs)
      && id in e' && e'[id] == Entry(1, now + config.windowMs)
  {
  }

  /** A request exactly at the reset time still counts in the old window. */
  lemma ResetTimeIsInWindow(entries: map<string, Entry>, config: Config, id: string)
    requires id in entries
    ensures var now := entries[id].resetTime;
      Live(entries, id, now) == Some(entries[id]) &&
      CheckSpec(entries, config, id, now).0.resetTime == entries[id].resetTime
  {
  }

  /** Within a window, a request over the limit fails with nothing left and
      is not counted; one under the limit is counted once, and `remaining`
      is what is left of the maximum. */
  lemma WithinWindow(entries: map<string, Entry>, config: Config, id: string, now: int)
    requires id in entries && now <= entries[id].resetTime
    ensures var (v, e') := CheckSpec(entries, config, id, now);
      var e := entries[id];
      && (e.count >= config.maxRequests ==> v == Verdict(false, 0, e.resetTime) && e' == entries)
      && (e.count < config.maxRequests ==>
            && v.success && e'[id] == Entry(e.count + 1, e.resetTime)
            && v.remaining == config.maxRequests - e'[id].count)
  {
  }

  /** From an empty store, `max` checks at one instant succeed and the next fails. */
  lemma {:induction false} LimitReached(config: Config, id: string, now: int, k: nat)
    requires config.maxRequests >= 1 && config.windowMs >= 0 && k < config.maxRequests
    ensures var e := Repeat(map[], config, id, now, k + 1);
      id in e && e[id] == Entry(k + 1, now + config.windowMs)
    ensures k + 1 == config.maxRequests ==>
      !CheckSpec(Repeat(map[], config, id, now, k + 1), config, id, now).0.success
  {
    if k > 0 {
      LimitReached(config, id, now, k - 1);
    }
  }

  /** The store after `n` checks of one identifier at one instant. */
  function Repeat(entries: map<string, Entry>, config: Config, id: string, now: int, n: nat): map<string, Entry> {
    if n == 0 then entries else CheckSpec(Repeat(entries, config, id, now, n - 1), config, id, now).1
  }

  /** The process-wide store. */
  class RateLimitStore {
    var entries: map<string, Entry>

    constructor()
      ensures entries == map[]
    {
      entries := map[];
    }

    /** `rateLimit(config).check(id)` at time `now`. */
    method Check(config: Config, id: string, now: int) returns (v: Verdict)
      modifies this
      ensures (v, entries) == CheckSpec(old(entries), config, id, now)
    {
      if id in entries && now > entries[id].resetTime {
        entries := entries - {id};
      }
      if id !in entries {
        var resetTime := now + config.windowMs;
        entries := entries[id := Entry(1, resetTime)];
        assert entries == old(entries)[id := Entry(1, resetTime)];
        return Verdict(true, config.maxRequests - 1, resetTime);
      }
      var current := entries[id];
      if current.count >= config.maxRequests {
        return Verdict(false, 0, current.resetTime);
      }
      current := current.(count := current.count + 1);
      entries := entries[id := current];
      v := Verdict(true, config.maxRequests - current.count, current.resetTime);
    }
  }

  /** The client's IP: the first hop of `x-forwarded-for`, trimmed, when that
      header is non-empty; else `x-real-ip` when non-empty; else `unknown`. */
  function ClientIp(forwarded: Option<string>, realIp: Option<string>): (ip: string)
    ensures Truthy(forwarded) ==> ',' !in ip && (ip == [] || (!IsSpace(ip[0]) && !IsSpace(ip[|ip| - 1])))
    ensures !Truthy(forwarded) && Truthy(realIp) ==> ip == realIp.value
    ensures !Truthy(forwarded) && !Truthy(realIp) ==> ip == "unknown"
  {
    if Truthy(forwarded) then
      var hop := Split(forwarded.value, ',')[0];
      var ip := Trim(hop);
      assert ',' !in ip by { TrimInside(hop); }
      ip
    else if Truthy(realIp) then realIp.value
    else "unknown"
  }

  /** Trimming keeps a contiguous piece of the text. */
  lemma TrimInside(s: string)
    ensures exists i, j :: 0 <= i <= j <= |s| && Trim(s) == s[i..j]
  {
    var t := TrimStart(s);
    var r := TrimEnd(t);
    assert t == s[|s| - |t|..];
    assert r == t[..|r|];
    assert Trim(s) == r;
    assert r == s[|s| - |t|..|s| - |t| + |r|];
  }

  /** For every forwarded header: the IP is the text before its first
      comma, or the whole header when it has none, trimmed. */
  lemma ClientIpIsFirstHop(forwarded: string, realIp: Option<string>)
    requires forwarded != ""
    ensures exists n :: 0 <= n <= |forwarded| && ',' !in forwarded[..n] && (n == |forwarded| || forwarded[n] == ',')
                        && ClientIp(Some(forwarded), realIp) == Trim(forwarded[..n])
    ensures ',' !in forwarded ==> ClientIp(Some(forwarded), realIp) == Trim(forwarded)
  {
    var hop := Split(forwarded, ',')[0];
    var n := |hop|;
    assert hop == forwarded[..n];
    if ',' !in forwarded {
      assert n == |forwarded|;
      assert forwarded[..n] == forwarded;
    }
  }

  /** The first hop is the text before the first comma, trimmed. */
  lemma FirstHop(hop: string, rest: string, realIp: Option<string>)
    requires ',' !in hop
    ensures ClientIp(Some(hop + "," + rest), realIp) == Trim(hop)
  {
    SplitFirstWord(hop, rest, ',');
    assert hop + "," + rest == hop + [','] + rest;
  }
}
