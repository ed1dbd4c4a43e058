/**
 INVITE-burst detection (`inviteBurstTracker`): per source a buffer cut to threshold + 1 timestamps.
 The ghost field `cut` keeps, per source, what has been dropped from the front of the buffer, so that
 the full log of a source is what was cut followed by its buffer.
 */
module Burst {

  /** Non-decreasing, with no element above hi. */
  ghost predicate Ordered(s: seq<int>, hi: int) {
    s == [] || (s[|s| - 1] <= hi && Ordered(s[..|s| - 1], s[|s| - 1]))
  }

  /** How many timestamps are not before the cutoff. */
  ghost function CountSince(s: seq<int>, cutoff: int): nat {
    if s == [] then 0 else CountSince(s[..|s| - 1], cutoff) + if s[|s| - 1] >= cutoff then 1 else 0
  }

  lemma {:induction false} CountConcat(a: seq<int>, b: seq<int>, cutoff: int)
    ensures CountSince(a + b, cutoff) == CountSince(a, cutoff) + CountSince(b, cutoff)
  {
    if b == [] {
      assert a + b == a;
    } else {
      assert (a + b)[..|a + b| - 1] == a + b[..|b| - 1];
      CountConcat(a, b[..|b| - 1], cutoff);
    }
  }

  lemma {:induction false} CountNone(s: seq<int>, hi: int, cutoff: int)
    requires Ordered(s, hi) && hi < cutoff
    ensures CountSince(s, cutoff) == 0
  {
    if s != [] { CountNone(s[..|s| - 1], s[|s| - 1], cutoff); }
  }

  lemma {:induction false} CountEvery(s: seq<int>, hi: int, cutoff: int)
    requires Ordered(s, hi) && s != [] && s[0] >= cutoff
    ensures CountSince(s, cutoff) == |s| && hi >= cutoff
  {
    if |s| > 1 { CountEvery(s[..|s| - 1], s[|s| - 1], cutoff); }
  }

  lemma {:induction false} OrderedParts(a: seq<int>, b: seq<int>, hi: int)
    requires Ordered(a + b, hi)
    ensures Ordered(b, hi) && Ordered(a, hi) && (a != [] ==> Ordered(a, a[|a| - 1]))
  {
    if b == [] {
      assert a + b == a;
    } else {
      assert (a + b)[..|a + b| - 1] == a + b[..|b| - 1];
      OrderedParts(a, b[..|b| - 1], b[|b| - 1]);
    }
  }

  lemma OrderedLater(s: seq<int>, hi: int, hi': int)
    requires Ordered(s, hi) && hi <= hi'
    ensures Ordered(s, hi')
  {}

  /** Buffer and cut of one source at time `clock`: together they are the log in time order, and only expired
      timestamps, or timestamps behind more than `threshold` younger ones, have been cut. */
  ghost predicate SourceOk(buffer: seq<int>, cut: seq<int>, clock: int, window: nat, threshold: nat) {
    && Ordered(cut + buffer, clock)
    && (cut != [] ==> cut[|cut| - 1] < clock - window || |buffer| > threshold)
  }

  /** A buffer without expired timestamps reaches the threshold iff the whole log does within the window. */
  lemma BufferDecides(buffer: seq<int>, cut: seq<int>, clock: int, window: nat, threshold: nat)
    requires SourceOk(buffer, cut, clock, window, threshold) && (buffer != [] ==> buffer[0] >= clock - window)
    ensures |buffer| >= threshold <==> CountSince(cut + buffer, clock - window) >= threshold
  {
    OrderedParts(cut, buffer, clock);
    CountConcat(cut, buffer, clock - window);
    if buffer != [] { CountEvery(buffer, clock, clock - window); }
    if cut != [] && cut[|cut| - 1] < clock - window { CountNone(cut, cut[|cut| - 1], clock - window); }
  }

  /** The buffer without the timestamps before the cutoff is its end from index `gone` on. */
  predicate Expired(buffer: seq<int>, gone: nat, cutoff: int) {
    && gone <= |buffer| && (gone > 0 ==> buffer[gone - 1] < cutoff) && (gone < |buffer| ==> buffer[gone] >= cutoff)
  }

  lemma ExpireOk(buffer: seq<int>, gone: nat, cut: seq<int>, clock: int, window: nat, threshold: nat)
    requires SourceOk(buffer, cut, clock, window, threshold) && Expired(buffer, gone, clock - window)
    ensures SourceOk(buffer[gone..], cut + buffer[..gone], clock, window, threshold)
    ensures cut + buffer[..gone] + buffer[gone..] == cut + buffer
  {
    assert cut + buffer[..gone] + buffer[gone..] == cut + buffer;
  }

  lemma AppendOk(rest: seq<int>, cut: seq<int>, now: int, window: nat, threshold: nat)
    requires SourceOk(rest, cut, now, window, threshold)
    ensures SourceOk(rest + [now], cut, now, window, threshold)
    ensures cut + (rest + [now]) == cut + rest + [now]
  {
    assert (cut + (rest + [now]))[..|cut + rest|] == cut + rest;
  }

  lemma TrimOk(all: seq<int>, cut: seq<int>, now: int, window: nat, threshold: nat)
    requires SourceOk(all, cut, now, window, threshold) && |all| > threshold
    ensures var k := |all| - threshold - 1;
            && SourceOk(all[k..], cut + all[..k], now, window, threshold)
            && cut + all[..k] + all[k..] == cut + all
  {
    var k := |all| - threshold - 1;
    assert cut + all[..k] + all[k..] == cut + all;
  }

  /** One more timestamp: the buffer without expired ones still decides for the log. */
  lemma AdmitOk(rest: seq<int>, cut: seq<int>, now: int, window: nat, threshold: nat)
    requires SourceOk(rest, cut, now, window, threshold) && (rest != [] ==> rest[0] >= now - window)
    ensures SourceOk(rest + [now], cut, now, window, threshold) && cut + (rest + [now]) == cut + rest + [now]
    ensures |rest + [now]| >= threshold <==> CountSince(cut + rest + [now], now - window) >= threshold
  {
    AppendOk(rest, cut, now, window, threshold);
    assert rest != [] ==> (rest + [now])[0] == rest[0];
    BufferDecides(rest + [now], cut, now, window, threshold);
  }

  function At(m: map<string, seq<int>>, ip: string): seq<int> { if ip in m then m[ip] else [] }

  /** The tracker's maps: the buffers, what was cut from each, and the full log of each source. */
  ghost predicate AllOk(entries: map<string, seq<int>>, cut: map<string, seq<int>>, log: map<string, seq<int>>,
                        clock: int, window: nat, threshold: nat) {
    forall ip :: OneOk(entries, cut, log, ip, clock, window, threshold)
  }

  ghost predicate OneOk(entries: map<string, seq<int>>, cut: map<string, seq<int>>, log: map<string, seq<int>>, ip: string,
                        clock: int, window: nat, threshold: nat) {
    && At(log, ip) == At(cut, ip) + At(entries, ip)
    && SourceOk(At(entries, ip), At(cut, ip), clock, window, threshold)
  }

  /** Time passing only expires more. */
  lemma Advance(entries: map<string, seq<int>>, cut: map<string, seq<int>>, log: map<string, seq<int>>,
                clock: int, now: int, window: nat, threshold: nat)
    requires AllOk(entries, cut, log, clock, window, threshold) && clock <= now
    ensures AllOk(entries, cut, log, now, window, threshold)
  {
    forall ip ensures OneOk(entries, cut, log, ip, now, window, threshold) {
      assert OneOk(entries, cut, log, ip, clock, window, threshold);
      OrderedLater(At(cut, ip) + At(entries, ip), clock, now);
    }
  }

  /** Replacing what is kept for one source. */
  lemma Put(entries: map<string, seq<int>>, cut: map<string, seq<int>>, log: map<string, seq<int>>,
            entries': map<string, seq<int>>, cut': map<string, seq<int>>, log': map<string, seq<int>>, ip: string,
            clock: int, window: nat, threshold: nat)
    requires AllOk(entries, cut, log, clock, window, threshold) && OneOk(entries', cut', log', ip, clock, window, threshold)
    requires entries' - {ip} == entries - {ip} && cut' - {ip} == cut - {ip} && log' - {ip} == log - {ip}
    ensures AllOk(entries', cut', log', clock, window, threshold)
  {
    forall j ensures OneOk(entries', cut', log', j, clock, window, threshold) {
      if j != ip {
        assert OneOk(entries, cut, log, j, clock, window, threshold);
        Elsewhere(entries, entries', ip, j);
        Elsewhere(cut, cut', ip, j);
        Elsewhere(log, log', ip, j);
      }
    }
  }

  lemma Elsewhere(m: map<string, seq<int>>, m': map<string, seq<int>>, ip: string, j: string)
    requires m' - {ip} == m - {ip} && j != ip
    ensures At(m', j) == At(m, j)
  {
    assert j in m <==> j in m - {ip};
    assert j in m' <==> j in m' - {ip};
    if j in m { assert m[j] == (m - {ip})[j]; assert m'[j] == (m' - {ip})[j]; }
  }

  lemma PutAll(entries: map<string, seq<int>>, cut: map<string, seq<int>>, log: map<string, seq<int>>, ip: string,
               buffer: seq<int>, dropped: seq<int>, clock: int, window: nat, threshold: nat)
    requires AllOk(entries, cut, log, clock, window, threshold) && SourceOk(buffer, dropped, clock, window, threshold)
    ensures AllOk(entries[ip := buffer], cut[ip := dropped], log[ip := dropped + buffer], clock, window, threshold)
  {
    Put(entries, cut, log, entries[ip := buffer], cut[ip := dropped], log[ip := dropped + buffer], ip, clock, window, threshold);
  }

  class InviteBurstTracker {
    const threshold: nat
    const window: nat
    var entries: map<string, seq<int>>
    ghost var cut: map<string, seq<int>>
    ghost var log: map<string, seq<int>>   // every INVITE ever recorded
    ghost var clock: int

    ghost predicate Valid()
      reads this
    {
      threshold > 0 && window > 0 && AllOk(entries, cut, log, clock, window, threshold)
    }

    constructor (threshold: nat, window: nat, ghost now: int)
      requires threshold > 0 && window > 0
      ensures Valid() && log == map[] && clock == now && this.threshold == threshold && this.window == window
    {
      this.threshold, this.window := threshold, window;
      entries := map[];
      cut, log, clock := map[], map[], now;
    }

    static method Expire(buffer: seq<int>, cutoff: int) returns (i: nat)
      ensures Expired(buffer, i, cutoff)
    {
      i := 0;
      while i < |buffer| && buffer[i] < cutoff
        invariant 0 <= i <= |buffer|
        invariant i > 0 ==> buffer[i - 1] < cutoff
      {
        i := i + 1;
      }
    }

    /** Records an INVITE; signals exactly when at least `threshold` INVITEs ever seen from this source, this
        one included, lie within the window. */
    method Record(srcIP: string, now: int) returns (signal: bool)
      requires Valid() && clock <= now
      modifies this
      ensures Valid() && clock == now
      ensures log == if srcIP == "" then old(log) else old(log)[srcIP := At(old(log), srcIP) + [now]]
      ensures signal <==> srcIP != "" && CountSince(At(log, srcIP), now - window) >= threshold
    {
      Advance(entries, cut, log, clock, now, window, threshold);
      clock := now;
      if srcIP == "" { return false; }
      assert OneOk(entries, cut, log, srcIP, now, window, threshold);
      ghost var dropped;
      var buffer;
      buffer, dropped := Admit(At(entries, srcIP), At(cut, srcIP), now, window, threshold);
      PutAll(entries, cut, log, srcIP, buffer, dropped, now, window, threshold);
      entries, cut, log := entries[srcIP := buffer], cut[srcIP := dropped], log[srcIP := At(log, srcIP) + [now]];
      signal := |buffer| >= threshold;
    }

    /** The buffer of one source after an INVITE: expired timestamps go, the new one comes, the last
        threshold + 1 stay. */
    static method Admit(buffer: seq<int>, ghost cut: seq<int>, now: int, window: nat, threshold: nat)
      returns (kept: seq<int>, ghost dropped: seq<int>)
      requires SourceOk(buffer, cut, now, window, threshold)
      ensures SourceOk(kept, dropped, now, window, threshold) && dropped + kept == cut + buffer + [now]
      ensures |kept| >= threshold <==> CountSince(cut + buffer + [now], now - window) >= threshold
    {
      var i := Expire(buffer, now - window);
      ExpireOk(buffer, i, cut, now, window, threshold);
      AdmitOk(buffer[i..], cut + buffer[..i], now, window, threshold);
      kept, dropped := buffer[i..] + [now], cut + buffer[..i];
      if |kept| > threshold + 1 {
        TrimOk(kept, dropped, now, window, threshold);
        kept, dropped := kept[|kept| - threshold - 1..], dropped + kept[..|kept| - threshold - 1];
      }
    }

    /** Drops expired timestamps and empty sources; the log, and with it every later answer, is unchanged. */
    method Cleanup(now: int)
      requires Valid() && clock <= now
      modifies this
      ensures Valid() && clock == now && log == old(log)
    {
      Advance(entries, cut, log, clock, now, window, threshold);
      clock := now;
      var todo := entries.Keys;
      while todo != {}
        invariant Valid() && clock == now && log == old(log)
        invariant todo <= entries.Keys
        decreases todo
      {
        var ip :| ip in todo;
        todo := todo - {ip};
        var buffer := entries[ip];
        var i := Expire(buffer, now - window);
        CleanOk(entries, cut, log, ip, i, now, window, threshold);
        cut := cut[ip := At(cut, ip) + buffer[..i]];
        if i == |buffer| { entries := entries - {ip}; } else { entries := entries[ip := buffer[i..]]; }
      }
    }
  }

  lemma CleanOk(entries: map<string, seq<int>>, cut: map<string, seq<int>>, log: map<string, seq<int>>, ip: string, gone: nat,
                now: int, window: nat, threshold: nat)
    requires AllOk(entries, cut, log, now, window, threshold) && Expired(At(entries, ip), gone, now - window)
    ensures var buffer := At(entries, ip);
            AllOk(if gone == |buffer| then entries - {ip} else entries[ip := buffer[gone..]],
                  cut[ip := At(cut, ip) + buffer[..gone]], log, now, window, threshold)
  {
    var buffer := At(entries, ip);
    assert OneOk(entries, cut, log, ip, now, window, threshold);
    ExpireOk(buffer, gone, At(cut, ip), now, window, threshold);
    var entries' := if gone == |buffer| then entries - {ip} else entries[ip := buffer[gone..]];
    var cut' := cut[ip := At(cut, ip) + buffer[..gone]];
    assert At(entries', ip) == buffer[gone..];
    Put(entries, cut, log, entries', cut', log, ip, now, window, threshold);
  }
}
