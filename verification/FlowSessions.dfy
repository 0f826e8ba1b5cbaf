/** Byte accounting of flow inspector sessions. */
module FlowSessions {
  import opened Text

  const IDLE_RETENTION := 10 * 60 * 1_000_000_000
  const SESSION_TTL := 30 * 60 * 1_000_000_000
  const TWO64 := 0x1_0000_0000_0000_0000

  datatype Direction = Upload | Download

  datatype Sample = Sample(key: string, upload: nat, download: nat)

  function Counter(x: Sample, d: Direction): nat {
    if d.Upload? then x.upload else x.download
  }

  datatype Flow = Flow(lastSeen: int, lastUpload: nat, lastDownload: nat, uploadTotal: nat, downloadTotal: nat)

  function FlowTotal(f: Flow, d: Direction): nat {
    if d.Upload? then f.uploadTotal else f.downloadTotal
  }

  function LastCounter(f: Flow, d: Direction): nat {
    if d.Upload? then f.lastUpload else f.lastDownload
  }

  datatype Session = Session(totalUpload: nat, totalDownload: nat, flows: map<string, Flow>)

  function SessionTotal(s: Session, d: Direction): nat {
    if d.Upload? then s.totalUpload else s.totalDownload
  }

  const EMPTY_SESSION := Session(0, 0, map[])

  function MonotonicDelta(current: nat, previous: nat): nat {
    if current >= previous then current - previous else 0
  }

  function Add64(a: nat, b: nat): nat {
    (a + b) % TWO64
  }

  // ---- One poll -------------------------------------------------------------

  function Observed(s: Session, now: int, x: Sample): Session {
    var key := TrimSpace(x.key);
    if key == "" then s
    else if key !in s.flows then s.(flows := s.flows[key := Flow(now, x.upload, x.download, 0, 0)])
    else
      var f := s.flows[key];
      var up, down := MonotonicDelta(x.upload, f.lastUpload), MonotonicDelta(x.download, f.lastDownload);
      Session(
        Add64(s.totalUpload, up), Add64(s.totalDownload, down),
        s.flows[key := Flow(now, x.upload, x.download, Add64(f.uploadTotal, up), Add64(f.downloadTotal, down))])
  }

  function ObservedAll(s: Session, now: int, xs: seq<Sample>): Session {
    if xs == [] then s else Observed(ObservedAll(s, now, xs[..|xs| - 1]), now, xs[|xs| - 1])
  }

  function SeenKeys(xs: seq<Sample>): set<string> {
    set x | x in xs && TrimSpace(x.key) != "" :: TrimSpace(x.key)
  }

  predicate Stays(f: Flow, key: string, now: int, seen: set<string>) {
    key in seen || now - f.lastSeen <= IDLE_RETENTION
  }

  function Swept(s: Session, now: int, seen: set<string>): Session {
    s.(flows := map k | k in s.flows && Stays(s.flows[k], k, now, seen) :: s.flows[k])
  }

  datatype Poll = Poll(now: int, samples: seq<Sample>)

  function Polled(s: Session, p: Poll): Session {
    Swept(ObservedAll(s, p.now, p.samples), p.now, SeenKeys(p.samples))
  }

  function After(polls: seq<Poll>): Session {
    if polls == [] then EMPTY_SESSION else Polled(After(polls[..|polls| - 1]), polls[|polls| - 1])
  }

  // ---- The inspector --------------------------------------------------------

  datatype Entry = Entry(vpnName: string, lastTouched: int, session: Session)

  datatype SessionError = NotFound | Mismatch

  datatype Result<T> = Ok(value: T) | Err(error: SessionError)

  function Unexpired(sessions: map<string, Entry>, now: int): map<string, Entry> {
    map id | id in sessions && now - sessions[id].lastTouched <= SESSION_TTL :: sessions[id]
  }

  class Inspector {
    var sessions: map<string, Entry>

    constructor ()
      ensures sessions == map[]
    {
      sessions := map[];
    }

    method CleanupExpired(now: int)
      modifies this
      ensures sessions == Unexpired(old(sessions), now)
    {
      ghost var was := sessions;
      var ids := sessions.Keys;
      while ids != {}
        invariant ids <= was.Keys
        invariant sessions == map id | id in was && (id in ids || now - was[id].lastTouched <= SESSION_TTL) :: was[id]
        decreases ids
      {
        var id :| id in ids;
        if now - sessions[id].lastTouched > SESSION_TTL {
          sessions := sessions - {id};
        }
        ids := ids - {id};
      }
    }

    /** `id` is the random identifier drawn for the new session. */
    method StartSession(id: string, vpnName: string, now: int)
      modifies this
      ensures sessions == Unexpired(old(sessions), now)[id := Entry(TrimSpace(vpnName), now, EMPTY_SESSION)]
    {
      CleanupExpired(now);
      sessions := sessions[id := Entry(TrimSpace(vpnName), now, EMPTY_SESSION)];
    }

    method StopSession(vpnName: string, id: string) returns (r: Result<()>)
      modifies this
      ensures r == if id !in old(sessions) then Err(NotFound)
                   else if old(sessions)[id].vpnName != TrimSpace(vpnName) then Err(Mismatch) else Ok(())
      ensures sessions == if r.Ok? then old(sessions) - {id} else old(sessions)
    {
      if id !in sessions {
        return Err(NotFound);
      }
      if sessions[id].vpnName != TrimSpace(vpnName) {
        return Err(Mismatch);
      }
      sessions := sessions - {id};
      return Ok(());
    }

    /** Takes one poll into the session; every other unexpired session stays as it was. */
    method UpdateAndSnapshot(vpnName: string, id: string, now: int, samples: seq<Sample>) returns (r: Result<Session>)
      modifies this
      ensures
        var live := Unexpired(old(sessions), now);
        if id !in live then r == Err(NotFound) && sessions == live
        else if live[id].vpnName != TrimSpace(vpnName) then r == Err(Mismatch) && sessions == live
        else r == Ok(Polled(live[id].session, Poll(now, samples))) && sessions == live[id := live[id].(lastTouched := now, session := r.value)]
    {
      hide Observed, Swept, SeenKeys, Unexpired, TrimSpace;
      CleanupExpired(now);
      if id !in sessions {
        return Err(NotFound);
      }
      if sessions[id].vpnName != TrimSpace(vpnName) {
        return Err(Mismatch);
      }
      var s, seen := TakeSamples(sessions[id].session, now, samples);
      s := DropIdle(s, now, seen);
      sessions := sessions[id := sessions[id].(lastTouched := now, session := s)];
      return Ok(s);
    }
  }

  method TakeSamples(start: Session, now: int, samples: seq<Sample>) returns (s: Session, seen: set<string>)
    ensures s == ObservedAll(start, now, samples) && seen == SeenKeys(samples)
  {
    hide TrimSpace;
    s, seen := start, {};
    for i := 0 to |samples|
      invariant s == ObservedAll(start, now, samples[..i]) && seen == SeenKeys(samples[..i])
    {
      assert samples[..i + 1][..i] == samples[..i];
      SeenSnoc(samples[..i], samples[i]);
      assert samples[..i] + [samples[i]] == samples[..i + 1];
      var x := samples[i];
      var key := TrimSpace(x.key);
      if key == "" {
        continue;
      }
      if key !in s.flows {
        s := s.(flows := s.flows[key := Flow(now, x.upload, x.download, 0, 0)]);
        seen := seen + {key};
        continue;
      }
      var f := s.flows[key];
      var up, down := MonotonicDelta(x.upload, f.lastUpload), MonotonicDelta(x.download, f.lastDownload);
      f := Flow(now, x.upload, x.download, Add64(f.uploadTotal, up), Add64(f.downloadTotal, down));
      s := Session(Add64(s.totalUpload, up), Add64(s.totalDownload, down), s.flows[key := f]);
      seen := seen + {key};
    }
    assert samples[..|samples|] == samples;
  }

  lemma SeenSnoc(xs: seq<Sample>, x: Sample)
    ensures SeenKeys(xs + [x]) == SeenKeys(xs) + if TrimSpace(x.key) == "" then {} else {TrimSpace(x.key)}
  {
    hide TrimSpace;
  }

  method DropIdle(start: Session, now: int, seen: set<string>) returns (s: Session)
    ensures s == Swept(start, now, seen)
  {
    s := start;
    var keys := s.flows.Keys;
    while keys != {}
      invariant keys <= start.flows.Keys
      invariant s == start.(flows := map k | k in start.flows && (k in keys || Stays(start.flows[k], k, now, seen)) :: start.flows[k])
      decreases keys
    {
      var k :| k in keys;
      if k !in seen && now - s.flows[k].lastSeen > IDLE_RETENTION {
        s := s.(flows := s.flows - {k});
      }
      keys := keys - {k};
    }
  }
}
