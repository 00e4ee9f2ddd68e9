/**
 * The OpenFIGI mapping helper shared by the CUSIP converter and the two live-subscription
 * scripts: jobs are buffered and posted in groups of at most 90, a request waits until half a
 * second has passed since the previous response, each job is paired with its reply, and the
 * single-match replies are assembled into columns and dictionaries.
 *
 * The HTTP round trip of one group (with its tenacity retries and `response.json()`) is the
 * oracle `post`; `before(k)` and `after(k)` are the clock readings taken just before the k-th
 * request and just after its response.
 */
module OpenFigi {

  import opened Wrappers
  import opened Batching

  const MAX_JOBS_PER_REQUEST: nat := 90
  const MIN_REQUEST_INTERVAL: real := 0.5

  /** The columns of `open_figi_data`, in declaration order; 'cusip' first. */
  const COLUMNS: seq<string> := ["cusip", "figi", "name", "ticker", "exchCode", "compositeFIGI", "securityType",
    "marketSector", "shareClassFIGI", "securityType2", "securityDescription"]

  /** One mapping job: `{"idType": ..., "idValue": ...}`. */
  datatype Job = Job(idType: string, idValue: string)

  /**
   * One element of the reply list, by the two keys the scripts look at: the optional 'warning'
   * text and the optional 'data' list of matches (each a map from field name to value).
   */
  datatype Reply = Reply(warning: Option<string>, data: Option<seq<map<string, string>>>)

  type Post = seq<Job> -> Result<seq<Reply>, string>

  // ---------------------------------------------------------------- rate limit

  /**
   * The sleep before a request: the rest of MIN_REQUEST_INTERVAL when less than that has passed
   * since the last response, else nothing. Either way the request goes out at least the interval
   * after the last response, and no later than needed for that.
   */
  function RateLimitWait(now: real, lastResponse: real): (w: real)
    ensures w >= 0.0
    ensures (now + w) - lastResponse >= MIN_REQUEST_INTERVAL
    ensures w > 0.0 ==> (now + w) - lastResponse == MIN_REQUEST_INTERVAL
    ensures w > 0.0 <==> now - lastResponse < MIN_REQUEST_INTERVAL
  {
    var interval := now - lastResponse;
    if interval < MIN_REQUEST_INTERVAL then MIN_REQUEST_INTERVAL - interval else 0.0
  }

  /** The wait before the k-th request: the last response time starts at 0 and is then the previous response. */
  function WaitBefore(k: nat, before: nat -> real, after: nat -> real): real {
    RateLimitWait(before(k), if k == 0 then 0.0 else after(k - 1))
  }

  // ---------------------------------------------------------------- pairing jobs with replies

  /** `zip(batch, results)`. */
  function Zip<A, B>(a: seq<A>, b: seq<B>): seq<(A, B)>
    decreases |a|
  {
    if a == [] || b == [] then [] else [(a[0], b[0])] + Zip(a[1..], b[1..])
  }

  /** `zip` pairs position `k` of both sides, up to the shorter one. */
  lemma {:induction false} ZipSpec<A, B>(a: seq<A>, b: seq<B>)
    ensures |Zip(a, b)| == if |a| <= |b| then |a| else |b|
    ensures forall k :: 0 <= k < |Zip(a, b)| ==> Zip(a, b)[k] == (a[k], b[k])
    decreases |a|
  {
    if a != [] && b != [] {
      ZipSpec(a[1..], b[1..]);
      var z := Zip(a, b);
      assert z == [(a[0], b[0])] + Zip(a[1..], b[1..]);
      forall k | 0 <= k < |z| ensures z[k] == (a[k], b[k]) {
        if k > 0 {
          assert z[k] == Zip(a[1..], b[1..])[k - 1];
        }
      }
    }
  }

  /** Pairs yielded before the rest of the mapping, which may still raise. */
  function Prepend<T>(p: seq<T>, r: Result<seq<T>, string>): Result<seq<T>, string> {
    if r.Ok? then Ok(p + r.value) else r
  }

  lemma PrependTwice<T>(a: seq<T>, b: seq<T>, r: Result<seq<T>, string>)
    ensures Prepend(a, Prepend(b, r)) == Prepend(a + b, r)
  {
    if r.Ok? {
      assert a + (b + r.value) == (a + b) + r.value;
    }
  }

  /**
   * What `_map_jobs` yields over the groups `cs`: each group's jobs zipped with its reply, group
   * by group; a group whose request fails raises, and nothing after it is yielded.
   */
  function MapChunks(cs: seq<seq<Job>>, post: Post): Result<seq<(Job, Reply)>, string>
    decreases |cs|
  {
    if cs == [] then Ok([])
    else match post(cs[0])
      case Err(e) => Err(e)
      case Ok(rs) => Prepend(Zip(cs[0], rs), MapChunks(cs[1..], post))
  }

  /** How many requests are sent over the groups `cs`: up to and including the first that fails. */
  function Posts(cs: seq<seq<Job>>, post: Post): nat
    decreases |cs|
  {
    if cs == [] then 0 else if post(cs[0]).Err? then 1 else 1 + Posts(cs[1..], post)
  }

  lemma MapChunksCons(c: seq<Job>, rest: seq<seq<Job>>, post: Post)
    ensures MapChunks([c] + rest, post) ==
      if post(c).Err? then Err(post(c).error) else Prepend(Zip(c, post(c).value), MapChunks(rest, post))
    ensures Posts([c] + rest, post) == if post(c).Err? then 1 else 1 + Posts(rest, post)
  {
    assert ([c] + rest)[0] == c && ([c] + rest)[1..] == rest;
  }

  /** The jobs go out in consecutive groups of 90, the last possibly shorter, none empty, together all the jobs. */
  lemma JobGroups(jobs: seq<Job>)
    ensures Flatten(Chunks(jobs, MAX_JOBS_PER_REQUEST)) == jobs
    ensures WellSized(Chunks(jobs, MAX_JOBS_PER_REQUEST), MAX_JOBS_PER_REQUEST)
  {
    ChunksSpec(jobs, MAX_JOBS_PER_REQUEST);
  }

  // ---------------------------------------------------------------- the generator's state

  /** The state `_map_jobs` and its `process_batch` closure share. */
  class JobMapper {
    /** `batch`: the jobs buffered for the next request. */
    var batch: seq<Job>
    /** `_last_response_time_dict['last_response_time']`. */
    var lastResponseTime: real
    /** The (job, reply) pairs yielded so far. */
    var yielded: seq<(Job, Reply)>
    /** The rate-limit sleeps, one per request sent. */
    var waits: seq<real>

    constructor ()
      ensures batch == [] && lastResponseTime == 0.0 && yielded == [] && waits == []
    {
      batch := [];
      lastResponseTime := 0.0;
      yielded := [];
      waits := [];
    }

    /**
     * `process_batch`: for a non-empty buffer, sleep out the rate limit, post the buffer, record
     * the response time and yield the jobs zipped with the replies, then clear the buffer. A
     * failed post raises before the buffer is cleared.
     */
    method ProcessBatch(post: Post, before: nat -> real, after: nat -> real) returns (failure: Option<string>)
      modifies this
      ensures old(batch) == [] ==>
        failure == None && batch == [] && yielded == old(yielded) && waits == old(waits) && lastResponseTime == old(lastResponseTime)
      ensures old(batch) != [] ==>
        waits == old(waits) + [RateLimitWait(before(|old(waits)|), old(lastResponseTime))]
      ensures old(batch) != [] && post(old(batch)).Err? ==>
        && failure == Some(post(old(batch)).error)
        && batch == old(batch) && yielded == old(yielded) && lastResponseTime == old(lastResponseTime)
      ensures old(batch) != [] && post(old(batch)).Ok? ==>
        && failure == None && batch == []
        && yielded == old(yielded) + Zip(old(batch), post(old(batch)).value)
        && lastResponseTime == after(|old(waits)|)
    {
      failure := None;
      if batch != [] {
        var k := |waits|;
        waits := waits + [RateLimitWait(before(k), lastResponseTime)];
        var response := post(batch);
        if response.Err? {
          return Some(response.error);
        }
        lastResponseTime := after(k);
        var results := response.value;
        ZipSpec(batch, results);
        var out := yielded;
        var j := 0;
        while j < |batch| && j < |results|
          invariant j <= |batch| && j <= |results| && j <= |Zip(batch, results)|
          invariant out == yielded + Zip(batch, results)[..j]
        {
          assert Zip(batch, results)[..j + 1] == Zip(batch, results)[..j] + [(batch[j], results[j])];
          out := out + [(batch[j], results[j])];
          j := j + 1;
        }
        assert Zip(batch, results)[..j] == Zip(batch, results);
        yielded := out;
      }
      batch := [];
    }
  }

  /**
   * `_map_jobs`: buffer the jobs one by one, process the buffer whenever it holds 90, and once
   * more at the end. The pairs are those of the 90-job groups; `waits` are the rate-limit sleeps
   * of the requests sent.
   */
  method MapJobs(jobs: seq<Job>, post: Post, before: nat -> real, after: nat -> real)
    returns (r: Result<seq<(Job, Reply)>, string>, waits: seq<real>)
    ensures r == MapChunks(Chunks(jobs, MAX_JOBS_PER_REQUEST), post)
    ensures |waits| == Posts(Chunks(jobs, MAX_JOBS_PER_REQUEST), post)
    ensures forall k :: 0 <= k < |waits| ==> waits[k] == WaitBefore(k, before, after)
  {
    var m := new JobMapper();
    var i := 0;
    assert From(jobs, 0) == jobs;
    assert MapChunks(Chunks(jobs, MAX_JOBS_PER_REQUEST), post).Ok? ==>
      [] + MapChunks(Chunks(jobs, MAX_JOBS_PER_REQUEST), post).value == MapChunks(Chunks(jobs, MAX_JOBS_PER_REQUEST), post).value;
    while i < |jobs|
      invariant i <= |jobs| && Buffered(jobs, i, m.batch)
      invariant Tracking(jobs, i - |m.batch|, m.yielded, m.waits, m.lastResponseTime, post, before, after)
    {
      var failure := Push(m, jobs, i, post, before, after);
      if failure.Some? {
        return Err(failure.value), m.waits;
      }
      i := i + 1;
    }
    if m.batch != [] {
      var failure := Flush(m, jobs, |jobs|, post, before, after);
      if failure.Some? {
        return Err(failure.value), m.waits;
      }
    }
    assert Chunks(From(jobs, i), MAX_JOBS_PER_REQUEST) == [];
    assert m.yielded + [] == m.yielded;
    r, waits := Ok(m.yielded), m.waits;
  }

  /** The buffer holds the jobs just before `i`, fewer than a full group. */
  ghost predicate Buffered(jobs: seq<Job>, i: nat, batch: seq<Job>) {
    |batch| < MAX_JOBS_PER_REQUEST && |batch| <= i <= |jobs| && batch == jobs[i - |batch|..i]
  }

  /**
   * What the generator has done once the jobs before `start` have gone out: the pairs yielded and
   * the groups from `start` on together make up the group-wise mapping, every request so far slept
   * its rate-limit wait, and the last response time is that of the previous request.
   */
  ghost predicate Tracking(jobs: seq<Job>, start: nat, yielded: seq<(Job, Reply)>, waits: seq<real>, last: real,
                           post: Post, before: nat -> real, after: nat -> real)
  {
    && Prepend(yielded, MapChunks(Chunks(From(jobs, start), MAX_JOBS_PER_REQUEST), post))
       == MapChunks(Chunks(jobs, MAX_JOBS_PER_REQUEST), post)
    && |waits| + Posts(Chunks(From(jobs, start), MAX_JOBS_PER_REQUEST), post) == Posts(Chunks(jobs, MAX_JOBS_PER_REQUEST), post)
    && Slept(waits, before, after)
    && last == if |waits| == 0 then 0.0 else after(|waits| - 1)
  }

  /** Every request so far slept its rate-limit wait. */
  ghost predicate Slept(waits: seq<real>, before: nat -> real, after: nat -> real) {
    forall k :: 0 <= k < |waits| ==> waits[k] == WaitBefore(k, before, after)
  }

  /** How the mapping ends when a request fails: with its error, after the requests the group-wise mapping sends. */
  ghost predicate Failed(jobs: seq<Job>, e: string, waits: seq<real>, post: Post, before: nat -> real, after: nat -> real) {
    && MapChunks(Chunks(jobs, MAX_JOBS_PER_REQUEST), post) == Err(e)
    && |waits| == Posts(Chunks(jobs, MAX_JOBS_PER_REQUEST), post)
    && Slept(waits, before, after)
  }

  /**
   * One turn of the `for job in jobs` loop: buffer `jobs[i]` and process the buffer once it holds
   * 90 jobs.
   */
  method Push(m: JobMapper, jobs: seq<Job>, i: nat, post: Post, before: nat -> real, after: nat -> real)
    returns (failure: Option<string>)
    requires i < |jobs| && Buffered(jobs, i, m.batch)
    requires Tracking(jobs, i - |m.batch|, m.yielded, m.waits, m.lastResponseTime, post, before, after)
    modifies m
    ensures failure.Some? ==> Failed(jobs, failure.value, m.waits, post, before, after)
    ensures failure.None? ==>
      && Buffered(jobs, i + 1, m.batch)
      && Tracking(jobs, i + 1 - |m.batch|, m.yielded, m.waits, m.lastResponseTime, post, before, after)
  {
    ghost var start := i - |m.batch|;
    assert jobs[start..i + 1] == m.batch + [jobs[i]];
    m.batch := m.batch + [jobs[i]];
    assert i + 1 - |m.batch| == start;
    failure := None;
    if |m.batch| >= MAX_JOBS_PER_REQUEST {
      failure := Flush(m, jobs, i + 1, post, before, after);
    }
  }

  /**
   * Processing the buffer `jobs[i - |batch|..i]`, which is the first group of the jobs from
   * `i - |batch|` on: the yielded pairs and the sleeps keep following the group-wise mapping.
   */
  method Flush(m: JobMapper, jobs: seq<Job>, i: nat, post: Post, before: nat -> real, after: nat -> real)
    returns (failure: Option<string>)
    requires 0 < |m.batch| <= MAX_JOBS_PER_REQUEST && |m.batch| <= i <= |jobs|
    requires m.batch == jobs[i - |m.batch|..i]
    requires |m.batch| == MAX_JOBS_PER_REQUEST || i == |jobs|
    requires Tracking(jobs, i - |m.batch|, m.yielded, m.waits, m.lastResponseTime, post, before, after)
    modifies m
    ensures failure.Some? ==> Failed(jobs, failure.value, m.waits, post, before, after)
    ensures failure.None? ==> m.batch == [] && Tracking(jobs, i, m.yielded, m.waits, m.lastResponseTime, post, before, after)
  {
    var start := i - |m.batch|;
    ChunksFrom(jobs, start, i, MAX_JOBS_PER_REQUEST);
    assert From(jobs, start + MAX_JOBS_PER_REQUEST) == From(jobs, i) by {
      if |m.batch| < MAX_JOBS_PER_REQUEST {
        assert From(jobs, start + MAX_JOBS_PER_REQUEST) == [] == From(jobs, i);
      }
    }
    ghost var group, rest := m.batch, Chunks(From(jobs, i), MAX_JOBS_PER_REQUEST);
    assert Chunks(From(jobs, start), MAX_JOBS_PER_REQUEST) == [group] + rest;
    MapChunksCons(group, rest, post);
    ghost var yielded, waits, last := m.yielded, m.waits, m.lastResponseTime;
    failure := m.ProcessBatch(post, before, after);
    assert m.waits == waits + [WaitBefore(|waits|, before, after)];
    assert Slept(m.waits, before, after) by {
      forall k | 0 <= k < |m.waits| ensures m.waits[k] == WaitBefore(k, before, after) {
        if k < |waits| {
          assert m.waits[k] == waits[k];
        }
      }
    }
    if failure.None? {
      PrependTwice(yielded, Zip(group, post(group).value), MapChunks(rest, post));
    }
  }

  // ---------------------------------------------------------------- assembling the columns

  /** A reply counts when its 'data' list holds exactly one match; others are only reported. */
  predicate SingleMatch(r: Reply) {
    r.data.Some? && |r.data.value| == 1
  }

  /** A counted reply as the job's `idValue` and its one match. */
  function MatchOf(p: (Job, Reply)): (string, map<string, string>)
    requires SingleMatch(p.1)
  {
    (p.0.idValue, p.1.data.value[0])
  }

  /** The counted replies, in order, as the job's `idValue` and the one match. */
  function Matches(pairs: seq<(Job, Reply)>): seq<(string, map<string, string>)>
    decreases |pairs|
  {
    if pairs == [] then []
    else
      var last := pairs[|pairs| - 1];
      Matches(pairs[..|pairs| - 1]) + if SingleMatch(last.1) then [MatchOf(last)] else []
  }

  /** A match is counted exactly when some reply has just that one match, and at most one per reply. */
  lemma {:induction false} MatchesSpec(pairs: seq<(Job, Reply)>)
    ensures |Matches(pairs)| <= |pairs|
    ensures forall p :: p in Matches(pairs) <==>
      exists k :: 0 <= k < |pairs| && SingleMatch(pairs[k].1) && p == MatchOf(pairs[k])
    decreases |pairs|
  {
    if pairs != [] {
      var init := pairs[..|pairs| - 1];
      MatchesSpec(init);
      forall p ensures p in Matches(pairs) <==>
        exists k :: 0 <= k < |pairs| && SingleMatch(pairs[k].1) && p == MatchOf(pairs[k])
      {
        if p in Matches(init) {
          var k :| 0 <= k < |init| && SingleMatch(init[k].1) && p == MatchOf(init[k]);
          assert pairs[k] == init[k];
        }
        if exists k :: 0 <= k < |pairs| && SingleMatch(pairs[k].1) && p == MatchOf(pairs[k]) {
          var k :| 0 <= k < |pairs| && SingleMatch(pairs[k].1) && p == MatchOf(pairs[k]);
          if k < |init| {
            assert pairs[k] == init[k];
          }
        }
      }
    }
  }

  /** `match[c] if c in match else ''`. */
  function FieldOr(m: map<string, string>, c: string): string {
    if c in m then m[c] else ""
  }

  /** What a match contributes to column `c`: the job's id for 'cusip', else the field or ''. */
  function Cell(m: (string, map<string, string>), c: string): string {
    if c == "cusip" then m.0 else FieldOr(m.1, c)
  }

  /** The column `c` of `open_figi_data` over the counted matches. */
  function Column(ms: seq<(string, map<string, string>)>, c: string): (col: seq<string>)
    ensures |col| == |ms|
    ensures forall k :: 0 <= k < |ms| ==> col[k] == Cell(ms[k], c)
  {
    seq(|ms|, k requires 0 <= k < |ms| => Cell(ms[k], c))
  }

  lemma ColumnSnoc(ms: seq<(string, map<string, string>)>, m: (string, map<string, string>), c: string)
    ensures Column(ms + [m], c) == Column(ms, c) + [Cell(m, c)]
  {
    assert Column(ms + [m], c) == Column(ms, c) + [Cell(m, c)];
  }

  /** A value is in column `c` exactly when it is the cell of some counted reply. */
  lemma InColumn(pairs: seq<(Job, Reply)>, c: string)
    ensures forall v :: v in Column(Matches(pairs), c) <==>
      exists k :: 0 <= k < |pairs| && SingleMatch(pairs[k].1) && Cell(MatchOf(pairs[k]), c) == v
  {
    var ms := Matches(pairs);
    MatchesSpec(pairs);
    forall v ensures v in Column(ms, c) <==> exists k :: 0 <= k < |pairs| && SingleMatch(pairs[k].1) && Cell(MatchOf(pairs[k]), c) == v {
      if v in Column(ms, c) {
        var i :| 0 <= i < |ms| && Column(ms, c)[i] == v;
        assert ms[i] in ms;
      }
      if exists k :: 0 <= k < |pairs| && SingleMatch(pairs[k].1) && Cell(MatchOf(pairs[k]), c) == v {
        var k :| 0 <= k < |pairs| && SingleMatch(pairs[k].1) && Cell(MatchOf(pairs[k]), c) == v;
        assert MatchOf(pairs[k]) in ms;
        var i :| 0 <= i < |ms| && ms[i] == MatchOf(pairs[k]);
        assert Column(ms, c)[i] == v;
      }
    }
  }

  /** The column names are distinct, and 'cusip' is the first. */
  lemma ColumnsDistinct()
    ensures forall a, b :: 0 <= a < b < |COLUMNS| ==> COLUMNS[a] != COLUMNS[b]
    ensures forall k :: 0 <= k < |COLUMNS| ==> (COLUMNS[k] == "cusip" <==> k == 0)
  {
  }

  /** `open_figi_data` holds, under each column and no other key, that column of the matches `ms`. */
  ghost predicate HoldsColumns(data: map<string, seq<string>>, ms: seq<(string, map<string, string>)>) {
    && (forall c :: c in data <==> c in COLUMNS)
    && forall k :: 0 <= k < |COLUMNS| ==> data[COLUMNS[k]] == Column(ms, COLUMNS[k])
  }

  /**
   * The loop over `_map_jobs(...)` in `openfigi_map_cusips_to_figis`: `open_figi_data` starts with
   * an empty list per column, and each counted reply appends its field (or '') to every column but
   * 'cusip' and its job's id to 'cusip'.
   */
  method CollectColumns(pairs: seq<(Job, Reply)>) returns (data: map<string, seq<string>>)
    ensures forall c :: c in data <==> c in COLUMNS
    ensures forall c :: c in COLUMNS ==> data[c] == Column(Matches(pairs), c)
  {
    data := map c | c in COLUMNS :: [];
    var i := 0;
    while i < |pairs|
      invariant 0 <= i <= |pairs|
      invariant HoldsColumns(data, Matches(pairs[..i]))
    {
      assert pairs[..i + 1][..i] == pairs[..i];
      var (job, result) := pairs[i];
      if result.data.Some? && |result.data.value| == 1 {
        data := AppendMatch(data, Matches(pairs[..i]), job.idValue, result.data.value[0]);
      }
      i := i + 1;
    }
    assert pairs[..i] == pairs;
    forall c | c in COLUMNS ensures data[c] == Column(Matches(pairs), c) {
      var k :| 0 <= k < |COLUMNS| && COLUMNS[k] == c;
    }
  }

  /** One counted reply: its fields go to every column but 'cusip', in column order, then its id to 'cusip'. */
  method AppendMatch(data0: map<string, seq<string>>, ghost ms: seq<(string, map<string, string>)>, id: string, m: map<string, string>)
    returns (data: map<string, seq<string>>)
    requires HoldsColumns(data0, ms)
    ensures HoldsColumns(data, ms + [(id, m)])
  {
    ColumnsDistinct();
    data := data0;
    var j := 0;
    while j < |COLUMNS|
      invariant 0 <= j <= |COLUMNS|
      invariant forall c :: c in data <==> c in COLUMNS
      invariant forall k :: 0 <= k < |COLUMNS| ==>
        data[COLUMNS[k]] == Column(ms, COLUMNS[k]) + if 0 < k < j then [FieldOr(m, COLUMNS[k])] else []
    {
      var c := COLUMNS[j];
      ghost var prev := data;
      if c != "cusip" {
        data := data[c := data[c] + [FieldOr(m, c)]];
      }
      forall k | 0 <= k < |COLUMNS|
        ensures data[COLUMNS[k]] == Column(ms, COLUMNS[k]) + if 0 < k < j + 1 then [FieldOr(m, COLUMNS[k])] else []
      {
        if k != j {
          assert COLUMNS[k] != c;
          assert data[COLUMNS[k]] == prev[COLUMNS[k]];
        }
      }
      j := j + 1;
    }
    data := data["cusip" := data["cusip"] + [id]];
    forall k | 0 <= k < |COLUMNS| ensures data[COLUMNS[k]] == Column(ms + [(id, m)], COLUMNS[k]) {
      ColumnSnoc(ms, (id, m), COLUMNS[k]);
    }
  }

  // ---------------------------------------------------------------- the dictionaries

  /** `dict(pairs)`: later pairs overwrite earlier ones with the same key. */
  function DictOf<K, V>(ps: seq<(K, V)>): map<K, V>
    decreases |ps|
  {
    if ps == [] then map[] else DictOf(ps[..|ps| - 1])[ps[|ps| - 1].0 := ps[|ps| - 1].1]
  }

  /** Every pair's key is a key of `dict(pairs)`. */
  lemma {:induction false} DictMember<K, V>(ps: seq<(K, V)>, j: nat)
    requires j < |ps|
    ensures ps[j].0 in DictOf(ps)
    decreases |ps|
  {
    if j < |ps| - 1 {
      DictMember(ps[..|ps| - 1], j);
    }
  }

  /** Every key of `dict(pairs)` is some pair's key. */
  lemma {:induction false} DictKeyAt<K, V>(ps: seq<(K, V)>, x: K) returns (j: nat)
    requires x in DictOf(ps)
    ensures j < |ps| && ps[j].0 == x
    decreases |ps|
  {
    if ps[|ps| - 1].0 == x {
      j := |ps| - 1;
    } else {
      j := DictKeyAt(ps[..|ps| - 1], x);
    }
  }

  /** A key maps to the value of the last pair that has it. */
  lemma {:induction false} DictLast<K, V>(ps: seq<(K, V)>, j: nat)
    requires j < |ps| && forall j2 :: j < j2 < |ps| ==> ps[j2].0 != ps[j].0
    ensures ps[j].0 in DictOf(ps) && DictOf(ps)[ps[j].0] == ps[j].1
    decreases |ps|
  {
    if j < |ps| - 1 {
      var init := ps[..|ps| - 1];
      assert init[j] == ps[j];
      forall j2 | j < j2 < |init| ensures init[j2].0 != init[j].0 {
        assert init[j2] == ps[j2];
      }
      DictLast(init, j);
    }
  }

  /** The keys of `dict(pairs)` are the pairs' keys, and each key maps to the value of its last pair. */
  lemma DictOfSpec<K, V>(ps: seq<(K, V)>)
    ensures forall x :: x in DictOf(ps) <==> exists j :: 0 <= j < |ps| && ps[j].0 == x
    ensures forall j :: 0 <= j < |ps| && (forall j2 :: j < j2 < |ps| ==> ps[j2].0 != ps[j].0) ==> DictOf(ps)[ps[j].0] == ps[j].1
  {
    forall x ensures x in DictOf(ps) <==> exists j :: 0 <= j < |ps| && ps[j].0 == x {
      if x in DictOf(ps) {
        var j := DictKeyAt(ps, x);
      }
      if exists j :: 0 <= j < |ps| && ps[j].0 == x {
        var j :| 0 <= j < |ps| && ps[j].0 == x;
        DictMember(ps, j);
      }
    }
    forall j | 0 <= j < |ps| && (forall j2 :: j < j2 < |ps| ==> ps[j2].0 != ps[j].0) ensures DictOf(ps)[ps[j].0] == ps[j].1 {
      DictLast(ps, j);
    }
  }

  predicate Distinct<T(==)>(s: seq<T>) {
    forall a, b :: 0 <= a < b < |s| ==> s[a] != s[b]
  }

  /**
   * `dict(zip(a, b))` and `dict(zip(b, a))` for columns of one length: their keys are the entries
   * of `a` and of `b`, and an entry of `a` not repeated later maps to the entry of `b` beside it.
   */
  lemma ZipDicts<A, B>(a: seq<A>, b: seq<B>)
    requires |a| == |b|
    ensures forall x :: x in DictOf(Zip(a, b)) <==> x in a
    ensures forall y :: y in DictOf(Zip(b, a)) <==> y in b
    ensures forall k :: 0 <= k < |a| && (forall k2 :: k < k2 < |a| ==> a[k2] != a[k]) ==> DictOf(Zip(a, b))[a[k]] == b[k]
    ensures forall k :: 0 <= k < |b| && (forall k2 :: k < k2 < |b| ==> b[k2] != b[k]) ==> DictOf(Zip(b, a))[b[k]] == a[k]
  {
    ZipSpec(a, b);
    ZipSpec(b, a);
    DictOfSpec(Zip(a, b));
    DictOfSpec(Zip(b, a));
    forall x ensures x in DictOf(Zip(a, b)) <==> x in a {
      if x in a {
        var k :| 0 <= k < |a| && a[k] == x;
        assert Zip(a, b)[k].0 == x;
      }
    }
    forall y ensures y in DictOf(Zip(b, a)) <==> y in b {
      if y in b {
        var k :| 0 <= k < |b| && b[k] == y;
        assert Zip(b, a)[k].0 == y;
      }
    }
    forall k | 0 <= k < |a| && (forall k2 :: k < k2 < |a| ==> a[k2] != a[k]) ensures DictOf(Zip(a, b))[a[k]] == b[k] {
      assert Zip(a, b)[k] == (a[k], b[k]);
    }
    forall k | 0 <= k < |b| && (forall k2 :: k < k2 < |b| ==> b[k2] != b[k]) ensures DictOf(Zip(b, a))[b[k]] == a[k] {
      assert Zip(b, a)[k] == (b[k], a[k]);
    }
  }

  /** A dictionary and the one built from the swapped pairs undo each other when neither side repeats. */
  lemma DictInverse<K, V>(ps: seq<(K, V)>, qs: seq<(V, K)>)
    requires |qs| == |ps| && forall k :: 0 <= k < |ps| ==> qs[k] == (ps[k].1, ps[k].0)
    requires forall i, j :: 0 <= i < j < |ps| ==> ps[i].0 != ps[j].0 && ps[i].1 != ps[j].1
    ensures forall x :: x in DictOf(ps) ==> DictOf(ps)[x] in DictOf(qs) && DictOf(qs)[DictOf(ps)[x]] == x
  {
    forall x | x in DictOf(ps) ensures DictOf(ps)[x] in DictOf(qs) && DictOf(qs)[DictOf(ps)[x]] == x {
      var j := DictKeyAt(ps, x);
      DictLast(ps, j);
      DictLast(qs, j);
    }
  }

  /** With no repeated entry on either side, the two dictionaries undo each other. */
  lemma ZipDictsInverse<A, B>(a: seq<A>, b: seq<B>)
    requires |a| == |b| && Distinct(a) && Distinct(b)
    ensures forall x :: x in DictOf(Zip(a, b)) ==> DictOf(Zip(a, b))[x] in DictOf(Zip(b, a)) && DictOf(Zip(b, a))[DictOf(Zip(a, b))[x]] == x
  {
    ZipSpec(a, b);
    ZipSpec(b, a);
    DictInverse(Zip(a, b), Zip(b, a));
  }

  // ---------------------------------------------------------------- openfigi_map_cusips_to_figis

  /** The jobs `{"idType": idType, "idValue": id}` for the ids in order. */
  function Jobs(idType: string, ids: seq<string>): (jobs: seq<Job>)
    ensures |jobs| == |ids| && forall k :: 0 <= k < |ids| ==> jobs[k] == Job(idType, ids[k])
  {
    seq(|ids|, k requires 0 <= k < |ids| => Job(idType, ids[k]))
  }

  /** `cusip_to_figi` and `figi_to_cusip` built from the 'cusip' and 'figi' columns. */
  function CusipDicts(ms: seq<(string, map<string, string>)>): (map<string, string>, map<string, string>) {
    (DictOf(Zip(Column(ms, "cusip"), Column(ms, "figi"))), DictOf(Zip(Column(ms, "figi"), Column(ms, "cusip"))))
  }

  /**
   * `openfigi_map_cusips_to_figis`: map the CUSIPs as 'ID_CUSIP' jobs, collect the single-match
   * replies into the columns and build the two dictionaries. A failed request raises.
   */
  method MapCusipsToFigis(cusips: seq<string>, post: Post, before: nat -> real, after: nat -> real)
    returns (r: Result<(map<string, string>, map<string, string>), string>, waits: seq<real>)
    ensures var mapped := MapChunks(Chunks(Jobs("ID_CUSIP", cusips), MAX_JOBS_PER_REQUEST), post);
      && (mapped.Err? ==> r == Err(mapped.error))
      && (mapped.Ok? ==> r == Ok(CusipDicts(Matches(mapped.value))))
    ensures forall k :: 0 <= k < |waits| ==> waits[k] == WaitBefore(k, before, after)
  {
    var pairs;
    pairs, waits := MapJobs(Jobs("ID_CUSIP", cusips), post, before, after);
    if pairs.Err? {
      return Err(pairs.error), waits;
    }
    var data := CollectColumns(pairs.value);
    ColumnsDistinct();
    assert "cusip" in COLUMNS && "figi" in COLUMNS;
    r := Ok((DictOf(Zip(data["cusip"], data["figi"])), DictOf(Zip(data["figi"], data["cusip"]))));
  }

  /**
   * A CUSIP is a key of `cusip_to_figi` exactly when the reply to one of its jobs had a single
   * match, and a FIGI is a key of `figi_to_cusip` exactly when it is the 'figi' field (or '') of
   * such a match.
   */
  lemma CusipDictKeys(pairs: seq<(Job, Reply)>)
    ensures forall c :: c in CusipDicts(Matches(pairs)).0 <==>
      exists k :: 0 <= k < |pairs| && SingleMatch(pairs[k].1) && pairs[k].0.idValue == c
    ensures forall f :: f in CusipDicts(Matches(pairs)).1 <==>
      exists k :: 0 <= k < |pairs| && SingleMatch(pairs[k].1) && FieldOr(pairs[k].1.data.value[0], "figi") == f
  {
    var ms := Matches(pairs);
    var cusips, figis := Column(ms, "cusip"), Column(ms, "figi");
    ZipDicts(cusips, figis);
    assert forall c :: c in CusipDicts(ms).0 <==> c in cusips;
    assert forall f :: f in CusipDicts(ms).1 <==> f in figis;
    InColumn(pairs, "cusip");
    InColumn(pairs, "figi");
    assert forall k :: 0 <= k < |pairs| && SingleMatch(pairs[k].1) ==>
      Cell(MatchOf(pairs[k]), "cusip") == pairs[k].0.idValue && Cell(MatchOf(pairs[k]), "figi") == FieldOr(pairs[k].1.data.value[0], "figi");
  }

  /** When the matched CUSIPs and their FIGIs are all distinct, `figi_to_cusip` undoes `cusip_to_figi`. */
  lemma CusipDictsInverse(ms: seq<(string, map<string, string>)>)
    requires Distinct(Column(ms, "cusip")) && Distinct(Column(ms, "figi"))
    ensures forall c :: c in CusipDicts(ms).0 ==> CusipDicts(ms).0[c] in CusipDicts(ms).1 && CusipDicts(ms).1[CusipDicts(ms).0[c]] == c
  {
    ZipDictsInverse(Column(ms, "cusip"), Column(ms, "figi"));
  }

  // ---------------------------------------------------------------- openfigi_map_isins_to_figis

  /** The error raised by `result['data'][0]['figi']` on a match without a 'figi' field. */
  const MISSING_FIGI: string := "KeyError: 'figi'"

  /** Every counted match carries a 'figi' field. */
  predicate AllHaveFigi(ms: seq<(string, map<string, string>)>) {
    forall k :: 0 <= k < |ms| ==> "figi" in ms[k].1
  }

  /** The `idValue` column. */
  function Ids(ms: seq<(string, map<string, string>)>): (ids: seq<string>)
    ensures |ids| == |ms| && forall k :: 0 <= k < |ms| ==> ids[k] == ms[k].0
  {
    seq(|ms|, k requires 0 <= k < |ms| => ms[k].0)
  }

  /** The 'figi' column, when every match has the field. */
  function Figis(ms: seq<(string, map<string, string>)>): (figis: seq<string>)
    requires AllHaveFigi(ms)
    ensures |figis| == |ms| && forall k :: 0 <= k < |ms| ==> figis[k] == ms[k].1["figi"]
  {
    seq(|ms|, k requires 0 <= k < |ms| => ms[k].1["figi"])
  }

  /**
   * The loop over `_map_jobs(...)` in `openfigi_map_isins_to_figis`: each counted reply appends its
   * match's 'figi' to the 'figi' list, raising when the field is missing, and its job's id to the
   * 'isin' list.
   */
  method CollectIsins(pairs: seq<(Job, Reply)>) returns (r: Result<(seq<string>, seq<string>), string>)
    ensures AllHaveFigi(Matches(pairs)) ==> r == Ok((Ids(Matches(pairs)), Figis(Matches(pairs))))
    ensures !AllHaveFigi(Matches(pairs)) ==> r == Err(MISSING_FIGI)
  {
    var isins, figis := [], [];
    var i := 0;
    while i < |pairs|
      invariant 0 <= i <= |pairs|
      invariant AllHaveFigi(Matches(pairs[..i]))
      invariant isins == Ids(Matches(pairs[..i])) && figis == Figis(Matches(pairs[..i]))
    {
      assert pairs[..i + 1][..i] == pairs[..i];
      var (job, result) := pairs[i];
      if result.data.Some? && |result.data.value| == 1 {
        var m := result.data.value[0];
        if "figi" !in m {
          MatchesSpec(pairs);
          assert MatchOf(pairs[i]) in Matches(pairs);
          return Err(MISSING_FIGI);
        }
        figis := figis + [m["figi"]];
        isins := isins + [job.idValue];
      }
      i := i + 1;
    }
    assert pairs[..i] == pairs;
    r := Ok((isins, figis));
  }

  /** `isin_to_figi` and `figi_to_isin` built from the two lists. */
  function IsinDicts(ms: seq<(string, map<string, string>)>): (map<string, string>, map<string, string>)
    requires AllHaveFigi(ms)
  {
    (DictOf(Zip(Ids(ms), Figis(ms))), DictOf(Zip(Figis(ms), Ids(ms))))
  }

  /**
   * `openfigi_map_isins_to_figis`: map the ISINs as 'ID_ISIN' jobs, collect the single-match
   * replies and build the two dictionaries. A failed request or a match without 'figi' raises.
   */
  method MapIsinsToFigis(isins: seq<string>, post: Post, before: nat -> real, after: nat -> real)
    returns (r: Result<(map<string, string>, map<string, string>), string>, waits: seq<real>)
    ensures var mapped := MapChunks(Chunks(Jobs("ID_ISIN", isins), MAX_JOBS_PER_REQUEST), post);
      && (mapped.Err? ==> r == Err(mapped.error))
      && (mapped.Ok? && !AllHaveFigi(Matches(mapped.value)) ==> r == Err(MISSING_FIGI))
      && (mapped.Ok? && AllHaveFigi(Matches(mapped.value)) ==> r == Ok(IsinDicts(Matches(mapped.value))))
    ensures forall k :: 0 <= k < |waits| ==> waits[k] == WaitBefore(k, before, after)
  {
    var pairs;
    pairs, waits := MapJobs(Jobs("ID_ISIN", isins), post, before, after);
    if pairs.Err? {
      return Err(pairs.error), waits;
    }
    var lists := CollectIsins(pairs.value);
    if lists.Err? {
      return Err(lists.error), waits;
    }
    var (isinList, figiList) := lists.value;
    r := Ok((DictOf(Zip(isinList, figiList)), DictOf(Zip(figiList, isinList))));
  }

  /**
   * An ISIN is a key of `isin_to_figi` exactly when the reply to one of its jobs had a single
   * match, and it maps to the FIGI of the last such reply.
   */
  lemma IsinDictKeys(pairs: seq<(Job, Reply)>)
    requires AllHaveFigi(Matches(pairs))
    ensures forall i :: i in IsinDicts(Matches(pairs)).0 <==>
      exists k :: 0 <= k < |pairs| && SingleMatch(pairs[k].1) && pairs[k].0.idValue == i
    ensures forall k :: 0 <= k < |Matches(pairs)| && (forall k2 :: k < k2 < |Matches(pairs)| ==> Matches(pairs)[k2].0 != Matches(pairs)[k].0) ==>
      Matches(pairs)[k].0 in IsinDicts(Matches(pairs)).0 && IsinDicts(Matches(pairs)).0[Matches(pairs)[k].0] == Matches(pairs)[k].1["figi"]
  {
    var ms := Matches(pairs);
    assert Ids(ms) == Column(ms, "cusip");
    ZipDicts(Ids(ms), Figis(ms));
    InColumn(pairs, "cusip");
    assert forall k :: 0 <= k < |pairs| && SingleMatch(pairs[k].1) ==> Cell(MatchOf(pairs[k]), "cusip") == pairs[k].0.idValue;
  }

  /** When the matched ISINs and their FIGIs are all distinct, `figi_to_isin` undoes `isin_to_figi`. */
  lemma IsinDictsInverse(ms: seq<(string, map<string, string>)>)
    requires AllHaveFigi(ms) && Distinct(Ids(ms)) && Distinct(Figis(ms))
    ensures forall i :: i in IsinDicts(ms).0 ==> IsinDicts(ms).0[i] in IsinDicts(ms).1 && IsinDicts(ms).1[IsinDicts(ms).0[i]] == i
  {
    ZipDictsInverse(Ids(ms), Figis(ms));
  }
}
