/** oauth.go's per-IP limiter: a pruned log of accepted requests, against the full history. */
module RateLimit {
  import opened Selection

  type Time = int

  /** One minute. */
  const WINDOW := 60_000_000

  /** The entries after the cutoff, in order. */
  function After(log: seq<Time>, cutoff: Time): (r: seq<Time>)
    ensures |r| <= |log|
  {
    if |log| == 0 then []
    else
      var n := |log| - 1;
      After(log[..n], cutoff) + (if log[n] > cutoff then [log[n]] else [])
  }

  /** Whether entry i of the log is after the cutoff. */
  ghost function IsAfter(log: seq<Time>, cutoff: Time): nat -> bool {
    (i: nat) => i < |log| && log[i] > cutoff
  }

  /** What is kept, and in which order: the entries after the cutoff, at increasing indices, each once. */
  lemma {:induction false} AfterExactly(log: seq<Time>, cutoff: Time, n: nat) returns (idx: seq<nat>)
    requires n <= |log|
    ensures Lists(idx, n, IsAfter(log, cutoff))
    ensures After(log[..n], cutoff) == seq(|idx|, k requires 0 <= k < |idx| => if idx[k] < |log| then log[idx[k]] else 0)
  {
    if n == 0 {
      idx := [];
    } else {
      var m := n - 1;
      var before := AfterExactly(log, cutoff, m);
      ListsOneMore(before, m, IsAfter(log, cutoff));
      idx := before + if IsAfter(log, cutoff)(m) then [m] else [];
      assert log[..n][..m] == log[..m];
    }
  }

  /** So there are as many as the log has entries after the cutoff ... */
  lemma AfterLength(log: seq<Time>, cutoff: Time)
    ensures |After(log, cutoff)| == |Wanted(|log|, IsAfter(log, cutoff))|
  {
    var idx := AfterExactly(log, cutoff, |log|);
    ListsAll(idx, |log|, IsAfter(log, cutoff));
    assert log[..|log|] == log;
  }

  /** ... and each time occurs as often as it did, or not at all. */
  lemma {:induction false} AfterCounts(log: seq<Time>, cutoff: Time, t: Time)
    ensures multiset(After(log, cutoff))[t] == if t > cutoff then multiset(log)[t] else 0
  {
    if log != [] {
      var n := |log| - 1;
      AfterCounts(log[..n], cutoff, t);
      OneMoreCounts(log[..n], log[n], t);
      assert log == log[..n] + [log[n]];
      if log[n] > cutoff {
        OneMoreCounts(After(log[..n], cutoff), log[n], t);
      } else {
        assert After(log, cutoff) == After(log[..n], cutoff);
      }
    }
  }

  lemma OneMoreCounts(log: seq<Time>, x: Time, t: Time)
    ensures multiset(log + [x])[t] == multiset(log)[t] + if x == t then 1 else 0
  {
  }

  function LogOf(limits: map<string, seq<Time>>, ip: string): seq<Time> {
    if ip in limits then limits[ip] else []
  }

  class Limiter {
    var limits: map<string, seq<Time>>

    constructor ()
      ensures limits == map[]
    {
      limits := map[];
    }

    /** `now` is the clock at the call. */
    method AllowIPRateLimit(ip: string, rpm: int, now: Time) returns (allowed: bool)
      modifies this
      ensures allowed <==> |After(LogOf(old(limits), ip), now - WINDOW)| < rpm
      ensures limits == old(limits)[ip := After(LogOf(old(limits), ip), now - WINDOW) + if allowed then [now] else []]
    {
      var cutoff := now - WINDOW;
      var log := if ip in limits then limits[ip] else [];
      var active := [];
      for i := 0 to |log|
        invariant active == After(log[..i], cutoff)
      {
        assert log[..i + 1][..i] == log[..i];
        if log[i] > cutoff {
          active := active + [log[i]];
        }
      }
      assert log[..|log|] == log;
      if |active| >= rpm {
        limits := limits[ip := active];
        assert active == active + [];
        return false;
      }
      active := active + [now];
      limits := limits[ip := active];
      return true;
    }
  }

  datatype Call = Call(ip: string, now: Time)

  /** The map after one more call. */
  function Served(limits: map<string, seq<Time>>, c: Call, rpm: int): map<string, seq<Time>> {
    limits[c.ip := After(LogOf(limits, c.ip), c.now - WINDOW) + if Allows(limits, c, rpm) then [c.now] else []]
  }

  /** The answer that the map gives to one more call. */
  predicate Allows(limits: map<string, seq<Time>>, c: Call, rpm: int) {
    |After(LogOf(limits, c.ip), c.now - WINDOW)| < rpm
  }

  /** The limiter's map after these calls. */
  function Limits(calls: seq<Call>, rpm: int): map<string, seq<Time>> {
    if |calls| == 0 then map[] else Served(Limits(calls[..|calls| - 1], rpm), calls[|calls| - 1], rpm)
  }

  /** The limiter's answer to one more call. */
  predicate Allowed(calls: seq<Call>, c: Call, rpm: int) {
    Allows(Limits(calls, rpm), c, rpm)
  }

  /** Every request of this IP that was ever accepted. */
  function Accepted(calls: seq<Call>, rpm: int, ip: string): seq<Time> {
    if |calls| == 0 then []
    else
      var n := |calls| - 1;
      Accepted(calls[..n], rpm, ip) +
      (if calls[n].ip == ip && Allowed(calls[..n], calls[n], rpm) then [calls[n].now] else [])
  }

  ghost predicate ClockForward(calls: seq<Call>) {
    forall i, k | 0 <= i <= k < |calls| :: calls[i].now <= calls[k].now
  }

  /** A single call of the method is a step of the run. */
  method Serve(l: Limiter, ghost calls: seq<Call>, c: Call, rpm: int) returns (allowed: bool)
    requires l.limits == Limits(calls, rpm)
    modifies l
    ensures l.limits == Limits(calls + [c], rpm)
    ensures allowed <==> Allowed(calls, c, rpm)
  {
    assert (calls + [c])[..|calls|] == calls;
    allowed := l.AllowIPRateLimit(c.ip, rpm, c.now);
  }

  lemma {:induction false} AfterAppend(a: seq<Time>, b: seq<Time>, cutoff: Time)
    ensures After(a + b, cutoff) == After(a, cutoff) + After(b, cutoff)
  {
    if b == [] {
      assert a + b == a;
    } else {
      var n := |b| - 1;
      assert (a + b)[..|a + b| - 1] == a + b[..n];
      AfterAppend(a, b[..n], cutoff);
    }
  }

  /** Pruning at an earlier cutoff does not show at a later one. */
  lemma {:induction false} PruneLater(log: seq<Time>, early: Time, late: Time)
    requires early <= late
    ensures After(After(log, early), late) == After(log, late)
  {
    if log != [] {
      var n := |log| - 1;
      PruneLater(log[..n], early, late);
      AfterAppend(After(log[..n], early), if log[n] > early then [log[n]] else [], late);
    }
  }

  /** One more call of the IP, seen from a cutoff not before its own. */
  lemma FaithfulStep(log: seq<Time>, history: seq<Time>, added: seq<Time>, early: Time, cutoff: Time)
    requires early <= cutoff && After(log, cutoff) == After(history, cutoff)
    ensures After(After(log, early) + added, cutoff) == After(history + added, cutoff)
  {
    PruneLater(log, early, cutoff);
    AfterAppend(After(log, early), added, cutoff);
    AfterAppend(history, added, cutoff);
  }

  lemma LastCall(calls: seq<Call>, rpm: int, ip: string)
    requires calls != []
    ensures var prior, c := calls[..|calls| - 1], calls[|calls| - 1];
            if c.ip == ip
            then
              && LogOf(Limits(calls, rpm), ip)
                 == After(LogOf(Limits(prior, rpm), ip), c.now - WINDOW) + (if Allowed(prior, c, rpm) then [c.now] else [])
              && Accepted(calls, rpm, ip) == Accepted(prior, rpm, ip) + (if Allowed(prior, c, rpm) then [c.now] else [])
            else
              && LogOf(Limits(calls, rpm), ip) == LogOf(Limits(prior, rpm), ip)
              && Accepted(calls, rpm, ip) == Accepted(prior, rpm, ip)
  {
  }

  /** The pruned log and the full history look the same from any cutoff not before the last call's. */
  lemma {:induction false} PrunedIsFaithful(calls: seq<Call>, rpm: int, ip: string, cutoff: Time)
    requires forall i | 0 <= i < |calls| :: calls[i].now - WINDOW <= cutoff
    ensures After(LogOf(Limits(calls, rpm), ip), cutoff) == After(Accepted(calls, rpm, ip), cutoff)
  {
    if calls != [] {
      var prior, c := calls[..|calls| - 1], calls[|calls| - 1];
      PrunedIsFaithful(prior, rpm, ip, cutoff);
      LastCall(calls, rpm, ip);
      if c.ip == ip {
        FaithfulStep(LogOf(Limits(prior, rpm), ip), Accepted(prior, rpm, ip),
                     if Allowed(prior, c, rpm) then [c.now] else [], c.now - WINDOW, cutoff);
      }
    }
  }

  /** For a clock that does not run backwards, the limiter answers as if it had kept everything: it
      allows a call exactly when fewer than rpm requests of that IP were accepted within the last
      minute. */
  lemma AnswersFromFullHistory(calls: seq<Call>, c: Call, rpm: int)
    requires ClockForward(calls + [c])
    ensures Allowed(calls, c, rpm) <==> |After(Accepted(calls, rpm, c.ip), c.now - WINDOW)| < rpm
  {
    forall i | 0 <= i < |calls| ensures calls[i].now - WINDOW <= c.now - WINDOW {
      assert (calls + [c])[i] == calls[i] && (calls + [c])[|calls|] == c;
    }
    PrunedIsFaithful(calls, rpm, c.ip, c.now - WINDOW);
  }

  /** The accepted requests within the minute that ends at t. */
  function InWindow(log: seq<Time>, t: Time): nat {
    if |log| == 0 then 0
    else
      var n := |log| - 1;
      InWindow(log[..n], t) + (if t - 60_000_000 < log[n] <= t then 1 else 0)
  }

  lemma {:induction false} WindowBelowAfter(log: seq<Time>, t: Time, cutoff: Time)
    requires cutoff <= t - WINDOW
    ensures InWindow(log, t) <= |After(log, cutoff)|
  {
    if log != [] { WindowBelowAfter(log[..|log| - 1], t, cutoff); }
  }

  /** No minute, wherever it is placed, ever holds more than rpm accepted requests of one IP. */
  lemma {:induction false} NeverMoreThanRpm(calls: seq<Call>, rpm: int, ip: string, t: Time)
    requires ClockForward(calls)
    ensures InWindow(Accepted(calls, rpm, ip), t) <= if rpm < 0 then 0 else rpm
  {
    if calls != [] {
      var n := |calls| - 1;
      var c := calls[n];
      NeverMoreThanRpm(calls[..n], rpm, ip, t);
      var before := Accepted(calls[..n], rpm, ip);
      if c.ip == ip && Allowed(calls[..n], c, rpm) {
        assert (before + [c.now])[..|before|] == before;
        assert calls[..n] + [c] == calls;
        AnswersFromFullHistory(calls[..n], c, rpm);
        if c.now <= t { WindowBelowAfter(before, t, c.now - WINDOW); }
      } else {
        assert Accepted(calls, rpm, ip) == before;
      }
    }
  }

  /** How many entries are after the cutoff. */
  function Recent(log: seq<Time>, cutoff: Time): nat {
    if |log| == 0 then 0
    else
      var n := |log| - 1;
      Recent(log[..n], cutoff) + (if log[n] > cutoff then 1 else 0)
  }

  lemma {:induction false} AfterIsRecent(log: seq<Time>, cutoff: Time)
    ensures |After(log, cutoff)| == Recent(log, cutoff)
  {
    if log != [] { AfterIsRecent(log[..|log| - 1], cutoff); }
  }

  lemma RecentOneMore(log: seq<Time>, x: Time, cutoff: Time)
    ensures Recent(log + [x], cutoff) == Recent(log, cutoff) + if x > cutoff then 1 else 0
  {
    assert (log + [x])[..|log|] == log;
  }

  lemma {:induction false} RecentAfterPruning(log: seq<Time>, early: Time, late: Time)
    requires early <= late
    ensures Recent(After(log, early), late) == Recent(log, late)
  {
    if log != [] {
      var n := |log| - 1;
      RecentAfterPruning(log[..n], early, late);
      if log[n] > early {
        RecentOneMore(After(log[..n], early), log[n], late);
      } else {
        assert After(log, early) == After(log[..n], early);
      }
    }
  }

  lemma RecentOfServed(limits: map<string, seq<Time>>, c: Call, rpm: int, ip: string, cutoff: Time)
    requires c.now - WINDOW <= cutoff
    ensures Recent(LogOf(Served(limits, c, rpm), ip), cutoff) ==
            Recent(LogOf(limits, ip), cutoff) + if c.ip == ip && Allows(limits, c, rpm) && c.now > cutoff then 1 else 0
  {
    if c.ip == ip {
      var log := LogOf(limits, ip);
      RecentAfterPruning(log, c.now - WINDOW, cutoff);
      if Allows(limits, c, rpm) {
        RecentOneMore(After(log, c.now - WINDOW), c.now, cutoff);
      } else {
        assert LogOf(Served(limits, c, rpm), ip) == After(log, c.now - WINDOW);
      }
    }
  }

  lemma RecentOfAccepted(calls: seq<Call>, rpm: int, ip: string, cutoff: Time)
    requires calls != []
    ensures var prior, c := calls[..|calls| - 1], calls[|calls| - 1];
            Recent(Accepted(calls, rpm, ip), cutoff) ==
            Recent(Accepted(prior, rpm, ip), cutoff) + if c.ip == ip && Allowed(prior, c, rpm) && c.now > cutoff then 1 else 0
  {
    var prior, c := calls[..|calls| - 1], calls[|calls| - 1];
    if c.ip == ip && Allowed(prior, c, rpm) {
      RecentOneMore(Accepted(prior, rpm, ip), c.now, cutoff);
    } else {
      assert Accepted(calls, rpm, ip) == Accepted(prior, rpm, ip);
    }
  }

  /** The pruned log has as many entries after a cutoff as the full history. */
  lemma {:induction false} RecentIsFaithful(calls: seq<Call>, rpm: int, ip: string, cutoff: Time)
    requires forall i | 0 <= i < |calls| :: calls[i].now - WINDOW <= cutoff
    ensures Recent(LogOf(Limits(calls, rpm), ip), cutoff) == Recent(Accepted(calls, rpm, ip), cutoff)
  {
    if calls != [] {
      var prior, c := calls[..|calls| - 1], calls[|calls| - 1];
      RecentIsFaithful(prior, rpm, ip, cutoff);
      RecentOfServed(Limits(prior, rpm), c, rpm, ip, cutoff);
      RecentOfAccepted(calls, rpm, ip, cutoff);
    }
  }

  lemma WindowOneMore(log: seq<Time>, x: Time, t: Time)
    ensures InWindow(log + [x], t) == InWindow(log, t) + if t - 60_000_000 < x <= t then 1 else 0
  {
    assert (log + [x])[..|log|] == log;
  }

  /** Nothing accepted so far lies in the future. */
  lemma {:induction false} RecentIsWindow(calls: seq<Call>, rpm: int, ip: string, now: Time)
    requires forall i | 0 <= i < |calls| :: calls[i].now <= now
    ensures Recent(Accepted(calls, rpm, ip), now - WINDOW) == InWindow(Accepted(calls, rpm, ip), now)
  {
    if calls != [] {
      var prior, c := calls[..|calls| - 1], calls[|calls| - 1];
      RecentIsWindow(prior, rpm, ip, now);
      if c.ip == ip && Allowed(prior, c, rpm) {
        RecentOneMore(Accepted(prior, rpm, ip), c.now, now - WINDOW);
        WindowOneMore(Accepted(prior, rpm, ip), c.now, now);
      } else {
        assert Accepted(calls, rpm, ip) == Accepted(prior, rpm, ip);
      }
    }
  }

  lemma NoneIsLater(calls: seq<Call>, c: Call)
    requires ClockForward(calls + [c])
    ensures forall i | 0 <= i < |calls| :: calls[i].now <= c.now
  {
    forall i | 0 <= i < |calls| ensures calls[i].now <= c.now {
      assert (calls + [c])[i] == calls[i] && (calls + [c])[|calls|] == c;
    }
  }

  lemma AllowedIsRecent(calls: seq<Call>, c: Call, rpm: int)
    ensures Allowed(calls, c, rpm) <==> Recent(LogOf(Limits(calls, rpm), c.ip), c.now - WINDOW) < rpm
  {
    AfterIsRecent(LogOf(Limits(calls, rpm), c.ip), c.now - WINDOW);
  }

  /** So for a clock that does not run backwards a call is allowed exactly when fewer than rpm requests of
      its IP were accepted within the minute that ends with it. */
  lemma AllowedExactly(calls: seq<Call>, c: Call, rpm: int)
    requires ClockForward(calls + [c])
    ensures Allowed(calls, c, rpm) <==> InWindow(Accepted(calls, rpm, c.ip), c.now) < rpm
  {
    NoneIsLater(calls, c);
    AllowedIsRecent(calls, c, rpm);
    RecentIsFaithful(calls, rpm, c.ip, c.now - WINDOW);
    RecentIsWindow(calls, rpm, c.ip, c.now);
  }

  lemma {:induction false} NothingInWindow(log: seq<Time>, now: Time)
    requires forall i | 0 <= i < |log| :: log[i] + 60_000_000 <= now
    ensures InWindow(log, now) == 0
  {
    if log != [] { NothingInWindow(log[..|log| - 1], now); }
  }

  /** Nobody is locked out: a minute after its last accepted request an IP is allowed again. */
  lemma AllowedAfterAMinute(calls: seq<Call>, c: Call, rpm: int)
    requires ClockForward(calls + [c]) && rpm > 0
    requires forall i | 0 <= i < |Accepted(calls, rpm, c.ip)| :: Accepted(calls, rpm, c.ip)[i] + 60_000_000 <= c.now
    ensures Allowed(calls, c, rpm)
  {
    AllowedExactly(calls, c, rpm);
    NothingInWindow(Accepted(calls, rpm, c.ip), c.now);
  }
}
