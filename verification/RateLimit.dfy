/** The per-client fixed-window rate limiter of the HTTP API.

    Models rateBucket, newRateLimiter and allow in internal/httpapi/server.go. */
module RateLimit {
  import opened Prelude

  const DefaultLimit := 60
  const DefaultWindow := 60_000_000_000

  /** A client with no bucket yet has the zero bucket in Go, whose start time is
      the zero time. */
  datatype Bucket = Bucket(started: int, count: nat)

  type Client = string

  type Buckets = map<Client, Bucket>

  datatype Setting = Setting(limit: nat, window: nat)

  ghost predicate Sound(s: Setting) {
    s.limit > 0 && s.window > 0
  }

  /** A negative limit means no limiter at all; zero picks the defaults. */
  function NewSetting(limit: int, window: int): (r: Option<Setting>)
    ensures r.None? <==> limit < 0
    ensures r.Some? ==> Sound(r.value)
    ensures limit > 0 ==> r.Some? && r.value.limit == limit
    ensures limit == 0 ==> r.Some? && r.value.limit == 60
    ensures r.Some? ==> r.value.window == if window > 0 then window else 60_000_000_000
  {
    if limit < 0 then None
    else Some(Setting(if limit == 0 then DefaultLimit else limit, if window <= 0 then DefaultWindow else window))
  }

  predicate Starts(s: Setting, b: Buckets, id: Client, now: int) {
    id !in b || now - b[id].started >= s.window
  }

  predicate Admits(s: Setting, b: Buckets, id: Client, now: int) {
    Starts(s, b, id, now) || b[id].count < s.limit
  }

  function Next(s: Setting, b: Buckets, id: Client, now: int): Buckets {
    if Starts(s, b, id, now) then b[id := Bucket(now, 1)]
    else if b[id].count >= s.limit then b
    else b[id := b[id].(count := b[id].count + 1)]
  }

  class RateLimiter {
    const setting: Setting
    var buckets: Buckets

    constructor (setting: Setting)
      ensures this.setting == setting && buckets == map[]
    {
      this.setting, buckets := setting, map[];
    }

    method Allow(id: Client, now: int) returns (ok: bool)
      modifies this
      ensures ok == Admits(setting, old(buckets), id, now)
      ensures buckets == Next(setting, old(buckets), id, now)
    {
      if id !in buckets || now - buckets[id].started >= setting.window {
        buckets := buckets[id := Bucket(now, 1)];
        return true;
      }
      var b := buckets[id];
      if b.count >= setting.limit {
        return false;
      }
      buckets := buckets[id := b.(count := b.count + 1)];
      return true;
    }
  }

  // ---------------------------------------------------------------- whole runs

  datatype Request = Request(client: Client, at: int)

  predicate Monotone(run: seq<Request>) {
    forall i, j | 0 <= i <= j < |run| :: run[i].at <= run[j].at
  }

  function After(s: Setting, run: seq<Request>): Buckets
    decreases |run|
  {
    if run == [] then map[]
    else
      var r := run[|run| - 1];
      Next(s, After(s, run[..|run| - 1]), r.client, r.at)
  }

  predicate Admitted(s: Setting, run: seq<Request>, i: nat)
    requires i < |run|
  {
    Admits(s, After(s, run[..i]), run[i].client, run[i].at)
  }

  /** How many of a client's requests were admitted in [from, to). */
  function Count(s: Setting, run: seq<Request>, id: Client, from: int, to: int): nat
    decreases |run|
  {
    if run == [] then 0
    else
      var n := |run| - 1;
      Count(s, run[..n], id, from, to)
      + if run[n].client == id && from <= run[n].at < to && Admitted(s, run, n) then 1 else 0
  }

  /** Splitting an interval splits the count. */
  lemma {:induction false} CountSplit(s: Setting, run: seq<Request>, id: Client, from: int, mid: int, to: int)
    requires from <= mid <= to
    ensures Count(s, run, id, from, to) == Count(s, run, id, from, mid) + Count(s, run, id, mid, to)
    decreases |run|
  {
    if run != [] {
      CountSplit(s, run[..|run| - 1], id, from, mid, to);
    }
  }

  lemma {:induction false} CountEmpty(s: Setting, run: seq<Request>, id: Client, from: int, to: int)
    requires forall i | 0 <= i < |run| && run[i].client == id :: run[i].at < from || to <= run[i].at
    ensures Count(s, run, id, from, to) == 0
    decreases |run|
  {
    if run != [] {
      CountEmpty(s, run[..|run| - 1], id, from, to);
    }
  }

  /** What the bucket of a client remembers about its past, at time now. */
  ghost predicate Remembers(s: Setting, run: seq<Request>, id: Client, now: int) {
    var b := After(s, run);
    if id !in b then forall i | 0 <= i < |run| :: run[i].client != id
    else
      && b[id].started <= now
      // The bucket counts exactly what was admitted since it started.
      && Count(s, run, id, b[id].started, now + 1) == b[id].count
      && 1 <= b[id].count <= s.limit
      // It was started by an admitted request, and would have been replaced by any
      // request a full window later.
      && Count(s, run, id, b[id].started, b[id].started + 1) >= 1
      && (forall i | 0 <= i < |run| && run[i].client == id :: run[i].at < b[id].started + s.window)
      // What came before it and still lies within one window of it is less than
      // a bucketful, because the bucket before started too early to be in sight.
      && forall t: int | t > b[id].started - s.window :: Count(s, run, id, t, b[id].started) <= s.limit - 1
  }

  lemma {:induction false} RunRemembers(s: Setting, run: seq<Request>, id: Client, now: int)
    requires Sound(s) && Monotone(run)
    requires run != [] ==> run[|run| - 1].at <= now
    ensures Remembers(s, run, id, now)
    decreases |run|
  {
    if run == [] {
      return;
    }
    var n := |run| - 1;
    var init, r := run[..n], run[n];
    RunRemembers(s, init, id, r.at);
    var b, b' := After(s, init), After(s, run);
    assert forall i | 0 <= i < |init| :: init[i] == run[i];
    if r.client != id {
      OtherBucket(s, run, id, now);
    } else if Starts(s, b, id, r.at) {
      FreshBucket(s, run, id, now);
    } else {
      var started := b[id].started;
      CountLater(s, init, id, started, r.at, now);
      forall t: int | t > started - s.window
        ensures Count(s, run, id, t, started) <= s.limit - 1
      {
        assert Count(s, run, id, t, started) == Count(s, init, id, t, started);
      }
    }
  }

  /** Nothing was admitted after the last request. */
  lemma CountLater(s: Setting, run: seq<Request>, id: Client, from: int, last: int, now: int)
    requires Monotone(run) && last <= now
    requires forall i | 0 <= i < |run| :: run[i].at <= last
    ensures Count(s, run, id, from, now + 1) == Count(s, run, id, from, last + 1)
  {
    if from <= last + 1 {
      CountSplit(s, run, id, from, last + 1, now + 1);
      CountEmpty(s, run, id, last + 1, now + 1);
    } else {
      CountEmpty(s, run, id, from, now + 1);
      CountEmpty(s, run, id, from, last + 1);
    }
  }

  lemma CountOther(s: Setting, run: seq<Request>, id: Client, from: int, to: int)
    requires run != [] && run[|run| - 1].client != id
    ensures Count(s, run, id, from, to) == Count(s, run[..|run| - 1], id, from, to)
  {
  }

  /** A request of another client. */
  lemma OtherBucket(s: Setting, run: seq<Request>, id: Client, now: int)
    requires Sound(s) && Monotone(run) && run != []
    requires run[|run| - 1].client != id && run[|run| - 1].at <= now
    requires Remembers(s, run[..|run| - 1], id, run[|run| - 1].at)
    ensures Remembers(s, run, id, now)
  {
    var n := |run| - 1;
    var init, r := run[..n], run[n];
    var b := After(s, init);
    assert forall i | 0 <= i < |init| :: init[i] == run[i];
    if id in b {
      CountLater(s, init, id, b[id].started, r.at, now);
      CountOther(s, run, id, b[id].started, now + 1);
      CountOther(s, run, id, b[id].started, b[id].started + 1);
      forall t: int | t > b[id].started - s.window
        ensures Count(s, run, id, t, b[id].started) <= s.limit - 1
      {
        CountOther(s, run, id, t, b[id].started);
      }
    }
  }

  /** A request that starts a bucket. */
  lemma FreshBucket(s: Setting, run: seq<Request>, id: Client, now: int)
    requires Sound(s) && Monotone(run) && run != []
    requires run[|run| - 1].client == id && run[|run| - 1].at <= now
    requires Starts(s, After(s, run[..|run| - 1]), id, run[|run| - 1].at)
    requires Remembers(s, run[..|run| - 1], id, run[|run| - 1].at)
    ensures Remembers(s, run, id, now)
  {
    var n := |run| - 1;
    var init, at := run[..n], run[n].at;
    var b := After(s, init);
    assert forall i | 0 <= i < |init| :: init[i] == run[i];
    CountEmpty(s, init, id, at, now + 1);
    forall t: int | t > at - s.window
      ensures Count(s, run, id, t, at) <= s.limit - 1
    {
      assert Count(s, run, id, t, at) == Count(s, init, id, t, at);
      if id !in b {
        CountEmpty(s, init, id, t, at);
      } else {
        WithoutItsFirst(s, init, id, t, at);
      }
    }
  }

  /** An interval that begins after a bucket's first request sees less than a
      bucketful of it. */
  lemma WithoutItsFirst(s: Setting, run: seq<Request>, id: Client, t: int, at: int)
    requires Sound(s) && id in After(s, run) && Remembers(s, run, id, at)
    requires t > After(s, run)[id].started
    ensures Count(s, run, id, t, at) <= s.limit - 1
  {
    var started := After(s, run)[id].started;
    if t <= at + 1 {
      CountSplit(s, run, id, started, started + 1, at + 1);
      CountSplit(s, run, id, started + 1, t, at + 1);
      if t <= at {
        CountSplit(s, run, id, t, at, at + 1);
      } else {
        CountEmpty(s, run, id, t, at);
      }
    } else {
      CountEmpty(s, run, id, t, at);
    }
  }

  // ---------------------------------------------------------------- theorems

  /** Under a monotone clock one bucket admits at most `limit` requests, and any
      half-open interval of one window's length sees at most 2 * limit - 1 of a
      client's requests admitted. */
  lemma {:induction false} WindowBound(s: Setting, run: seq<Request>, id: Client, t: int)
    requires Sound(s) && Monotone(run)
    ensures Count(s, run, id, t, t + s.window) <= 2 * s.limit - 1
    ensures id in After(s, run) ==> After(s, run)[id].count <= s.limit
    decreases |run|
  {
    if run != [] {
      var n := |run| - 1;
      var at := run[n].at;
      WindowBound(s, run[..n], id, t);
      RunRemembers(s, run, id, at);
      if run[n].client == id && t <= at < t + s.window {
        var started := After(s, run)[id].started;
        CountLater(s, run, id, t, at, t + s.window - 1);
        if t <= started {
          CountSplit(s, run, id, t, started, at + 1);
        } else {
          CountSplit(s, run, id, started, t, at + 1);
        }
      }
    }
  }

  /** A client that has sent nothing for a full window is admitted. */
  lemma IdleIsAdmitted(s: Setting, run: seq<Request>, id: Client, now: int)
    requires Sound(s) && Monotone(run)
    requires run != [] ==> run[|run| - 1].at <= now
    requires forall i | 0 <= i < |run| && run[i].client == id :: run[i].at <= now - s.window
    ensures Admits(s, After(s, run), id, now)
  {
    RunRemembers(s, run, id, now);
    var b := After(s, run);
    if id in b && b[id].started > now - s.window {
      CountEmpty(s, run, id, b[id].started, b[id].started + 1);
    }
  }

  /** The requests of one client, in order. */
  function Only(run: seq<Request>, id: Client): seq<Request>
    decreases |run|
  {
    if run == [] then []
    else
      var n := |run| - 1;
      Only(run[..n], id) + if run[n].client == id then [run[n]] else []
  }

  /** Clients never affect each other: a client's bucket, and so every verdict on
      its requests, is what it would be if it were alone. */
  lemma {:induction false} ClientsIndependent(s: Setting, run: seq<Request>, id: Client, now: int)
    ensures var alone, among := After(s, Only(run, id)), After(s, run);
            && (id in alone <==> id in among)
            && (id in alone ==> alone[id] == among[id])
            && Admits(s, alone, id, now) == Admits(s, among, id, now)
    decreases |run|
  {
    if run != [] {
      var n := |run| - 1;
      ClientsIndependent(s, run[..n], id, now);
      if run[n].client == id {
        var own := Only(run[..n], id);
        assert (own + [run[n]])[..|own|] == own;
      } else {
        assert Only(run, id) == Only(run[..n], id);
      }
    }
  }

  // ---------------------------------------------------------------- tightness

  function Burst(id: Client, at: int, n: nat): seq<Request> {
    seq(n, _ => Request(id, at))
  }

  /** n requests at one time that fit into the open bucket are all admitted. */
  lemma {:induction false} BurstAdmitted(s: Setting, run: seq<Request>, id: Client, at: int, n: nat)
    requires id in After(s, run) && at - After(s, run)[id].started < s.window
    requires After(s, run)[id].count + n <= s.limit
    ensures var b := After(s, run + Burst(id, at, n));
            id in b && b[id] == After(s, run)[id].(count := After(s, run)[id].count + n)
    ensures forall from, to | from <= at < to ::
              Count(s, run + Burst(id, at, n), id, from, to) == Count(s, run, id, from, to) + n
  {
    var all := run + Burst(id, at, n);
    if n == 0 {
      assert all == run;
    } else {
      BurstAdmitted(s, run, id, at, n - 1);
      assert all[..|all| - 1] == run + Burst(id, at, n - 1);
      assert all[|all| - 1] == Request(id, at);
    }
  }

  /** The bound is met: one request, the rest of the bucket just before the window
      ends, and a full bucket right after. */
  function FirstBucket(s: Setting, id: Client): seq<Request>
    requires Sound(s)
  {
    [Request(id, 0)] + Burst(id, s.window - 1, s.limit - 1)
  }

  function Worst(s: Setting, id: Client): seq<Request>
    requires Sound(s)
  {
    FirstBucket(s, id) + [Request(id, s.window)] + Burst(id, s.window, s.limit - 1)
  }

  lemma FirstBucketFills(s: Setting, id: Client)
    requires Sound(s) && s.window >= 2
    ensures var b := After(s, FirstBucket(s, id)); id in b && b[id] == Bucket(0, s.limit)
    ensures Count(s, FirstBucket(s, id), id, s.window - 1, s.window - 1 + s.window) == s.limit - 1
  {
    var one := [Request(id, 0)];
    assert one[..0] == [];
    assert After(s, one) == map[id := Bucket(0, 1)];
    assert Count(s, one, id, s.window - 1, s.window - 1 + s.window) == 0;
    BurstAdmitted(s, one, id, s.window - 1, s.limit - 1);
  }

  lemma WorstIsMonotone(s: Setting, id: Client)
    requires Sound(s)
    ensures Monotone(Worst(s, id))
  {
    var run := Worst(s, id);
    forall i, j | 0 <= i <= j < |run|
      ensures run[i].at <= run[j].at
    {
      assert run[i].at == if i == 0 then 0 else if i < s.limit then s.window - 1 else s.window;
      assert run[j].at == if j == 0 then 0 else if j < s.limit then s.window - 1 else s.window;
    }
  }

  lemma BoundIsTight(s: Setting, id: Client)
    requires Sound(s) && s.window >= 2
    ensures Monotone(Worst(s, id))
    ensures Count(s, Worst(s, id), id, s.window - 1, s.window - 1 + s.window) == 2 * s.limit - 1
  {
    WorstIsMonotone(s, id);
    FirstBucketFills(s, id);
    var first := FirstBucket(s, id);
    var more := first + [Request(id, s.window)];
    assert more[..|first|] == first && more[|first|] == Request(id, s.window);
    BurstAdmitted(s, more, id, s.window, s.limit - 1);
  }
}
