/** Background downloads: one at a time, out of the way of visible work, resumed where they stopped. */
module Traffic {
  import opened Board

  type Byte = bv8
  type Bytes = seq<Byte>
  type JobId = nat

  // ---------------------------------------------------------------------------
  // The server
  // ---------------------------------------------------------------------------

  /** A resource at one moment. */
  datatype Version = Version(bytes: Bytes, etag: Option<string>)

  /** What each address held, moment by moment. */
  type Server = (string, nat) -> Version

  predicate IsWeak(etag: string) {
    |etag| >= 2 && etag[..2] == "W/"
  }

  predicate IsStrong(etag: Option<string>) {
    etag.Some? && etag.value != "" && !IsWeak(etag.value)
  }

  /** A strong entity tag names one sequence of bytes (section 8.8.1 of RFC 9110); what has none never changes. */
  ghost predicate Trustworthy(server: Server) {
    forall url, t1, t2 | !IsStrong(server(url, t1).etag) || server(url, t2).etag == server(url, t1).etag ::
      server(url, t1).bytes == server(url, t2).bytes
  }

  datatype Response = Response(
    ok: bool, partial: bool, first: Option<nat>, mime: string, etag: Option<string>,
    ranges: bool, encoded: bool, hasBody: bool, body: Bytes)

  /**
   * An answer from some version of the resource: the whole of it, or, to a
   * range request whose `If-Range` tag is still the current one, the bytes from
   * a stated place on (sections 13.1.5, 14.2 and 15.3.7 of RFC 9110), unencoded.
   */
  ghost predicate Answers(server: Server, url: string, f: Fetch, r: Response) {
    r.ok ==> exists t :: AnswersFrom(server(url, t), f, r)
  }

  predicate AnswersFrom(v: Version, f: Fetch, r: Response) {
    if r.partial then
      && f.range.Some? && (f.ifRange.Some? ==> v.etag == f.ifRange)
      && r.first.Some? && r.first.value <= |v.bytes| && r.body == v.bytes[r.first.value..]
      && !r.encoded && r.hasBody
    else
      r.body == v.bytes && r.etag == v.etag
  }

  // ---------------------------------------------------------------------------
  // The queue
  // ---------------------------------------------------------------------------

  /** A promise settles once. */
  datatype Outcome = Pending | Resolved(blob: Bytes) | Rejected

  datatype Job = Job(
    url: string, priority: int, cancelled: bool,
    chunks: Option<seq<Bytes>>, received: nat, mime: string, etag: Option<string>, outcome: Outcome)

  /** Waiting for headers; reading a body; taking a body whole; settled, its last handler still to run. */
  datatype Stage = Waiting | Streaming(rest: Bytes) | Gathering(rest: Bytes) | Over

  datatype Fetch = Fetch(job: JobId, range: Option<nat>, ifRange: Option<string>, aborted: bool, stage: Stage)

  /** Jobs are named by their place in `store`; `started` and `finished` count fetches for the proofs. */
  datatype Queue = Queue(
    store: seq<Job>, jobs: seq<JobId>, active: Option<Fetch>,
    tokens: set<nat>, nextToken: nat, foreground: int, enabled: bool, started: nat, finished: nat)

  const EMPTY := Queue([], [], None, {}, 0, 0, true, 0, 0)

  predicate Busy(q: Queue) {
    q.foreground > 0 || !q.enabled
  }

  function Joined(chunks: seq<Bytes>): Bytes {
    if chunks == [] then [] else Joined(chunks[..|chunks| - 1]) + chunks[|chunks| - 1]
  }

  function Stored(j: Job): Bytes {
    if j.chunks.Some? then Joined(j.chunks.value) else []
  }

  function PriorityOf(store: seq<Job>, id: JobId): int {
    if id < |store| then store[id].priority else 0
  }

  /** Before the first that is less urgent: after its equals. */
  function Insert(store: seq<Job>, sorted: seq<JobId>, id: JobId): (out: seq<JobId>)
    ensures multiset(out) == multiset(sorted) + multiset{id}
    ensures forall x :: x in out <==> x in sorted || x == id
    ensures out[0] == if sorted == [] || PriorityOf(store, id) < PriorityOf(store, sorted[0]) then id else sorted[0]
  {
    if sorted == [] then [id]
    else if PriorityOf(store, id) < PriorityOf(store, sorted[0]) then [id] + sorted
    else
      assert sorted == [sorted[0]] + sorted[1..];
      [sorted[0]] + Insert(store, sorted[1..], id)
  }

  function Sorted(store: seq<Job>, jobs: seq<JobId>): (out: seq<JobId>)
    ensures multiset(out) == multiset(jobs) && |out| == |jobs|
    ensures forall x :: x in out <==> x in jobs
  {
    if jobs == [] then []
    else
      assert jobs == jobs[..|jobs| - 1] + [jobs[|jobs| - 1]];
      var out := Insert(store, Sorted(store, jobs[..|jobs| - 1]), jobs[|jobs| - 1]);
      assert |out| == |multiset(out)| && |jobs| == |multiset(jobs)|;
      out
  }

  function FetchFor(id: JobId, j: Job): Fetch {
    Fetch(id,
      if j.received > 0 then Some(j.received) else None,
      if j.received > 0 && IsStrong(j.etag) then j.etag else None,
      false, Waiting)
  }

  /** Starts the most urgent job, unless one is running or visible work has the line. */
  function Pump(q: Queue): Queue {
    if Busy(q) || q.active.Some? then q
    else
      var sorted := Sorted(q.store, q.jobs);
      if sorted == [] then q.(jobs := [])
      else if sorted[0] >= |q.store| then q.(jobs := sorted[1..])
      else q.(jobs := sorted[1..], active := Some(FetchFor(sorted[0], q.store[sorted[0]])), started := q.started + 1)
  }

  function Abort(q: Queue): Queue {
    if q.active.Some? then q.(active := Some(q.active.value.(aborted := true))) else q
  }

  function Changed(q: Queue): Queue {
    if Busy(q) then Abort(q) else Pump(q)
  }

  function Settled(j: Job, outcome: Outcome): Job {
    if j.outcome.Pending? then j.(outcome := outcome) else j
  }

  function AllBut(jobs: seq<JobId>, id: JobId): (out: seq<JobId>)
    ensures forall x :: multiset(out)[x] == if x == id then 0 else multiset(jobs)[x]
    ensures forall x :: x in out <==> x in jobs && x != id
  {
    if jobs == [] then []
    else
      assert jobs == [jobs[0]] + jobs[1..];
      var rest := AllBut(jobs[1..], id);
      if jobs[0] == id then rest else [jobs[0]] + rest
  }

  /** Into the queue it goes back when it was only interrupted; any other failure is its job's. */
  function Caught(q: Queue): Queue
    requires q.active.Some? && q.active.value.job < |q.store|
  {
    var f := q.active.value;
    var j := q.store[f.job];
    var q' := q.(active := Some(f.(stage := Over)));
    if f.aborted && !j.cancelled then q'.(jobs := [f.job] + q.jobs)
    else q'.(store := q.store[f.job := Settled(j, Rejected)])
  }

  /** The headers: a whole body starts the job afresh, a range goes on from where it stopped. */
  function Responded(q: Queue, r: Response): Queue
    requires q.active.Some? && q.active.value.job < |q.store|
  {
    var f := q.active.value;
    var j := q.store[f.job];
    if !r.ok || (r.partial && r.first != Some(j.received)) then Caught(q)
    else
      var j' := if r.partial then j else j.(chunks := Some([]), received := 0, mime := r.mime, etag := r.etag);
      var whole := !r.hasBody || (!r.partial && !r.ranges) || r.encoded;
      q.(store := q.store[f.job := j'],
         active := Some(f.(stage := if whole then Gathering(r.body) else Streaming(r.body))))
  }

  /** One chunk. A range that answers no earlier body has nowhere to go: the push throws. */
  function ChunkRead(q: Queue, n: nat): Queue
    requires q.active.Some? && q.active.value.job < |q.store|
    requires q.active.value.stage.Streaming? && n <= |q.active.value.stage.rest|
  {
    var f := q.active.value;
    var j := q.store[f.job];
    if j.chunks.None? then Caught(q)
    else
      var chunk, rest := f.stage.rest[..n], f.stage.rest[n..];
      q.(store := q.store[f.job := j.(chunks := Some(j.chunks.value + [chunk]), received := j.received + n)],
         active := Some(f.(stage := Streaming(rest))))
  }

  function Finished(q: Queue, blob: Bytes): Queue
    requires q.active.Some? && q.active.value.job < |q.store|
  {
    var f := q.active.value;
    q.(store := q.store[f.job := Settled(q.store[f.job], Resolved(blob))],
       active := Some(f.(stage := Over)))
  }

  datatype Happening =
    | Request(url: string, priority: int, aborted: bool)
    | Cancel(id: JobId)
    | SetEnabled(enabled: bool)
    | ForegroundRequest
    | ForegroundDone(token: nat)
    | Respond(response: Response)
    | Read(n: nat)
    | End
    | Fail
    | Finally

  predicate InFlight(q: Queue) {
    q.active.Some? && q.active.value.job < |q.store| && !q.active.value.stage.Over?
  }

  function Step(q: Queue, h: Happening): Queue {
    match h
    case Request(url, priority, aborted) =>
      var j := Job(url, priority, aborted, None, 0, "", None, if aborted then Rejected else Pending);
      var q' := q.(store := q.store + [j]);
      if aborted then q' else Pump(q'.(jobs := q.jobs + [|q.store|]))
    case Cancel(id) =>
      if id >= |q.store| || q.store[id].cancelled then q
      else
        var j := q.store[id];
        var q' := q.(store := q.store[id := Settled(j.(cancelled := true), Rejected)]);
        if !j.outcome.Pending? then q'
        else
          var q'' := q'.(jobs := AllBut(q.jobs, id));
          if q.active.Some? && q.active.value.job == id then Abort(q'') else q''
    case SetEnabled(enabled) => Changed(q.(enabled := enabled))
    case ForegroundRequest =>
      Changed(q.(tokens := q.tokens + {q.nextToken}, nextToken := q.nextToken + 1, foreground := q.foreground + 1))
    case ForegroundDone(token) =>
      if token !in q.tokens then q
      else Changed(q.(tokens := q.tokens - {token}, foreground := q.foreground - 1))
    case Respond(r) =>
      if InFlight(q) && q.active.value.stage.Waiting? then Responded(q, r) else q
    case Read(n) =>
      if InFlight(q) && q.active.value.stage.Streaming? && 0 < n <= |q.active.value.stage.rest| then ChunkRead(q, n) else q
    case End =>
      if !InFlight(q) then q
      else
        (match q.active.value.stage
         case Streaming(rest) => if rest == [] then Finished(q, Stored(q.store[q.active.value.job])) else q
         case Gathering(rest) => Finished(q, rest)
         case _ => q)
    case Fail => if InFlight(q) then Caught(q) else q
    case Finally =>
      if q.active.Some? && q.active.value.stage.Over? then Pump(q.(active := None, finished := q.finished + 1)) else q
  }

  // ---------------------------------------------------------------------------
  // One complete version
  // ---------------------------------------------------------------------------

  ghost predicate IsVersion(server: Server, url: string, bytes: Bytes) {
    exists t :: server(url, t).bytes == bytes
  }

  /** `bytes` begin a version that carries the tag. */
  ghost predicate Begins(server: Server, url: string, etag: Option<string>, bytes: Bytes) {
    exists t :: bytes <= server(url, t).bytes && server(url, t).etag == etag
  }

  /** `bytes` and what is still to come make up a version that carries the tag. */
  ghost predicate Completes(server: Server, url: string, etag: Option<string>, bytes: Bytes, rest: Bytes) {
    exists t :: server(url, t).bytes == bytes + rest && server(url, t).etag == etag
  }

  /** What a job has stored is the beginning of one version; what it resolved with is the whole of one. */
  ghost predicate JobSound(server: Server, j: Job) {
    && j.received == |Stored(j)|
    && (j.chunks.Some? ==> Begins(server, j.url, j.etag, Stored(j)))
    && (j.outcome.Resolved? ==> IsVersion(server, j.url, j.outcome.blob))
  }

  ghost predicate FetchSound(server: Server, f: Fetch, j: Job) {
    match f.stage
    case Waiting => f == FetchFor(f.job, j).(aborted := f.aborted)
    case Streaming(rest) => j.chunks.Some? && Completes(server, j.url, j.etag, Stored(j), rest)
    case Gathering(rest) => IsVersion(server, j.url, rest)
    case Over => true
  }

  ghost predicate Sound(server: Server, q: Queue) {
    && (forall i | 0 <= i < |q.store| :: JobSound(server, q.store[i]))
    && (q.active.Some? ==> q.active.value.job < |q.store| && FetchSound(server, q.active.value, q.store[q.active.value.job]))
    && (forall id | id in q.jobs :: id < |q.store|)
  }

  /** Only answers the server could give. */
  ghost predicate Plausible(server: Server, q: Queue, h: Happening) {
    (h.Respond? && q.active.Some? && q.active.value.job < |q.store|) ==>
      Answers(server, q.store[q.active.value.job].url, q.active.value, h.response)
  }

  lemma PumpSound(server: Server, q: Queue)
    requires Sound(server, q)
    ensures Sound(server, Pump(q))
  {
    hide JobSound;
    var sorted := Sorted(q.store, q.jobs);
    if sorted != [] {
      assert sorted == [sorted[0]] + sorted[1..];
      assert forall id | id in sorted[1..] :: id in sorted;
    }
  }

  lemma CaughtSound(server: Server, q: Queue)
    requires Sound(server, q) && q.active.Some?
    ensures Sound(server, Caught(q))
  {
  }

  lemma RespondedSound(server: Server, q: Queue, r: Response)
    requires Trustworthy(server) && Sound(server, q) && InFlight(q) && q.active.value.stage.Waiting?
    requires Answers(server, q.store[q.active.value.job].url, q.active.value, r)
    ensures Sound(server, Responded(q, r))
  {
    var f := q.active.value;
    var j := q.store[f.job];
    if !r.ok || (r.partial && r.first != Some(j.received)) {
      CaughtSound(server, q);
    } else {
      var t :| AnswersFrom(server(j.url, t), f, r);
      if r.partial {
        assert j.chunks.Some?;
        var t0 :| Stored(j) <= server(j.url, t0).bytes && server(j.url, t0).etag == j.etag;
        assert server(j.url, t0).bytes == server(j.url, t).bytes;
        assert server(j.url, t0).bytes == Stored(j) + r.body;
      } else {
        assert Joined([]) <= server(j.url, t).bytes;
        assert server(j.url, t).bytes == Joined([]) + r.body;
      }
    }
  }

  lemma ChunkReadSound(server: Server, q: Queue, n: nat)
    requires Sound(server, q) && InFlight(q) && q.active.value.stage.Streaming? && n <= |q.active.value.stage.rest|
    ensures Sound(server, ChunkRead(q, n))
  {
    var f := q.active.value;
    var j := q.store[f.job];
    var rest := f.stage.rest;
    var t :| server(j.url, t).bytes == Stored(j) + rest && server(j.url, t).etag == j.etag;
    var chunks := j.chunks.value + [rest[..n]];
    assert chunks[..|chunks| - 1] == j.chunks.value;
    assert Stored(j) + rest == Joined(chunks) + rest[n..];
  }

  lemma AbortSound(server: Server, q: Queue)
    requires Sound(server, q)
    ensures Sound(server, Abort(q))
  {
  }

  lemma CancelSound(server: Server, q: Queue, id: JobId)
    requires Sound(server, q)
    ensures Sound(server, Step(q, Cancel(id)))
  {
    if id < |q.store| && !q.store[id].cancelled {
      var j := q.store[id];
      var j' := Settled(j.(cancelled := true), Rejected);
      assert JobSound(server, j) && JobSound(server, j');
      assert forall f :: FetchSound(server, f, j) ==> FetchSound(server, f, j');
      hide JobSound, FetchSound;
      assert Sound(server, q.(store := q.store[id := j']));
    }
  }

  lemma EndSound(server: Server, q: Queue)
    requires Sound(server, q)
    ensures Sound(server, Step(q, End))
  {
    if InFlight(q) && q.active.value.stage.Streaming? && q.active.value.stage.rest == [] {
      var j := q.store[q.active.value.job];
      assert Stored(j) + [] == Stored(j);
    }
  }

  lemma StepSound(server: Server, q: Queue, h: Happening)
    requires Trustworthy(server) && Sound(server, q) && Plausible(server, q, h)
    ensures Sound(server, Step(q, h))
  {
    hide JobSound, FetchSound, Joined, Pump, Caught, Responded;
    match h
    case Request(url, priority, aborted) => RequestSound(server, q, url, priority, aborted);
    case Cancel(id) => CancelSound(server, q, id);
    case SetEnabled(enabled) => ChangedSound(server, q.(enabled := enabled));
    case ForegroundRequest =>
      ChangedSound(server,
        q.(tokens := q.tokens + {q.nextToken}, nextToken := q.nextToken + 1, foreground := q.foreground + 1));
    case ForegroundDone(token) =>
      ChangedSound(server, q.(tokens := q.tokens - {token}, foreground := q.foreground - 1));
    case Respond(r) => if InFlight(q) && q.active.value.stage.Waiting? { RespondedSound(server, q, r); }
    case Read(n) =>
      if InFlight(q) && q.active.value.stage.Streaming? && 0 < n <= |q.active.value.stage.rest| { ChunkReadSound(server, q, n); }
    case End => EndSound(server, q);
    case Fail => if InFlight(q) { CaughtSound(server, q); }
    case Finally => PumpSound(server, q.(active := None, finished := q.finished + 1));
  }

  lemma RequestSound(server: Server, q: Queue, url: string, priority: int, aborted: bool)
    requires Sound(server, q)
    ensures Sound(server, Step(q, Request(url, priority, aborted)))
  {
    var j := Job(url, priority, aborted, None, 0, "", None, if aborted then Rejected else Pending);
    var q' := q.(store := q.store + [j]);
    assert JobSound(server, j);
    if !aborted { PumpSound(server, q'.(jobs := q.jobs + [|q.store|])); }
  }

  lemma ChangedSound(server: Server, q: Queue)
    requires Sound(server, q)
    ensures Sound(server, Changed(q))
  {
    PumpSound(server, q);
    AbortSound(server, q);
  }

  function Run(happenings: seq<Happening>): Queue {
    if happenings == [] then EMPTY
    else Step(Run(happenings[..|happenings| - 1]), happenings[|happenings| - 1])
  }

  ghost predicate AllPlausible(server: Server, happenings: seq<Happening>) {
    forall k | 0 <= k < |happenings| :: Plausible(server, Run(happenings[..k]), happenings[k])
  }

  /** However often it was interrupted, a download that resolves gives one version, whole. */
  lemma {:induction false} ResolvesToOneVersion(server: Server, happenings: seq<Happening>)
    requires Trustworthy(server) && AllPlausible(server, happenings)
    ensures forall j | j in Run(happenings).store ::
      && j.received == |Stored(j)|
      && (j.chunks.Some? ==> Begins(server, j.url, j.etag, Stored(j)))
      && (j.outcome.Resolved? ==> IsVersion(server, j.url, j.outcome.blob))
    ensures Sound(server, Run(happenings))
  {
    if happenings != [] {
      var pre := happenings[..|happenings| - 1];
      assert forall k | 0 <= k < |pre| :: pre[..k] == happenings[..k];
      ResolvesToOneVersion(server, pre);
      StepSound(server, Run(pre), happenings[|happenings| - 1]);
    }
    assert forall j | j in Run(happenings).store :: JobSound(server, j);
  }

  // ---------------------------------------------------------------------------
  // One at a time, and out of the way
  // ---------------------------------------------------------------------------

  function Flying(q: Queue, id: JobId): nat {
    if InFlight(q) && q.active.value.job == id then 1 else 0
  }

  /** A job still owed an answer is in the queue or in flight, in one place once; a job that has one is not queued. */
  ghost predicate Placed(q: Queue, id: JobId)
    requires id < |q.store|
  {
    var j := q.store[id];
    && (j.outcome.Pending? ==> !j.cancelled && multiset(q.jobs)[id] + Flying(q, id) == 1)
    && (!j.outcome.Pending? ==> multiset(q.jobs)[id] == 0 && (Flying(q, id) == 1 ==> j.cancelled))
  }

  ghost predicate Tidy(q: Queue) {
    && (forall id | 0 <= id < |q.store| :: Placed(q, id))
    && (forall id | id in q.jobs :: id < |q.store|)
    && (q.active.Some? ==> q.active.value.job < |q.store|)
    && q.started == q.finished + (if q.active.Some? then 1 else 0)
    && q.foreground == |q.tokens| && (forall t | t in q.tokens :: t < q.nextToken)
  }

  /** While visible work has the line, what runs has been told to stop. */
  ghost predicate OutOfTheWay(q: Queue) {
    Busy(q) && q.active.Some? ==> q.active.value.aborted
  }

  lemma PumpPlaces(q: Queue, id: JobId)
    requires !Busy(q) && q.active.None? && q.jobs != [] && id < |q.store| && Placed(q, id)
    requires forall x | x in q.jobs :: x < |q.store|
    ensures Placed(Pump(q), id)
  {
    var sorted := Sorted(q.store, q.jobs);
    assert sorted == [sorted[0]] + sorted[1..];
    assert sorted[0] in q.jobs;
    assert multiset(q.jobs) == multiset{sorted[0]} + multiset(sorted[1..]);
  }

  lemma PumpTidy(q: Queue)
    requires Tidy(q) && OutOfTheWay(q)
    ensures Tidy(Pump(q)) && OutOfTheWay(Pump(q))
  {
    var sorted := Sorted(q.store, q.jobs);
    if !Busy(q) && q.active.None? && sorted != [] {
      assert sorted == [sorted[0]] + sorted[1..];
      assert forall id | id in sorted[1..] :: id in sorted;
      assert sorted[0] in q.jobs;
      forall id | 0 <= id < |q.store| ensures Placed(Pump(q), id) { PumpPlaces(q, id); }
    }
    hide Placed;
  }

  lemma ChangedTidy(q: Queue)
    requires Tidy(q)
    ensures Tidy(Changed(q)) && OutOfTheWay(Changed(q))
  {
    if Busy(q) {
      assert forall id | 0 <= id < |q.store| :: Placed(q, id) ==> Placed(Abort(q), id);
      hide Placed;
    } else {
      PumpTidy(q);
    }
  }

  lemma RequestTidy(q: Queue, url: string, priority: int, aborted: bool)
    requires Tidy(q) && OutOfTheWay(q)
    ensures Tidy(Step(q, Request(url, priority, aborted))) && OutOfTheWay(Step(q, Request(url, priority, aborted)))
  {
    var j := Job(url, priority, aborted, None, 0, "", None, if aborted then Rejected else Pending);
    var q1 := q.(store := q.store + [j], jobs := if aborted then q.jobs else q.jobs + [|q.store|]);
    forall id | 0 <= id < |q1.store| ensures Placed(q1, id) {
      if id < |q.store| { assert Placed(q, id); } else { assert id !in q.jobs; assert multiset(q.jobs)[id] == 0; }
    }
    hide Placed;
    if !aborted { PumpTidy(q1); }
  }

  lemma CancelTidy(q: Queue, id: JobId)
    requires Tidy(q) && OutOfTheWay(q)
    ensures Tidy(Step(q, Cancel(id))) && OutOfTheWay(Step(q, Cancel(id)))
  {
    var q' := Step(q, Cancel(id));
    forall x | 0 <= x < |q.store| ensures Placed(q', x) { assert Placed(q, x); }
    hide Placed;
  }

  lemma CaughtTidy(q: Queue)
    requires Tidy(q) && OutOfTheWay(q) && InFlight(q)
    ensures Tidy(Caught(q)) && OutOfTheWay(Caught(q))
  {
    forall x | 0 <= x < |q.store| ensures Placed(Caught(q), x) { assert Placed(q, x); }
    hide Placed;
  }

  lemma RespondedTidy(q: Queue, r: Response)
    requires Tidy(q) && OutOfTheWay(q) && InFlight(q)
    ensures Tidy(Responded(q, r)) && OutOfTheWay(Responded(q, r))
  {
    CaughtTidy(q);
    if r.ok && (r.partial ==> r.first == Some(q.store[q.active.value.job].received)) {
      forall x | 0 <= x < |q.store| ensures Placed(Responded(q, r), x) { assert Placed(q, x); }
    }
    hide Placed;
  }

  lemma ReadTidy(q: Queue, n: nat)
    requires Tidy(q) && OutOfTheWay(q)
    ensures Tidy(Step(q, Read(n))) && OutOfTheWay(Step(q, Read(n)))
  {
    if InFlight(q) {
      CaughtTidy(q);
      var j := q.store[q.active.value.job];
      if j.chunks.Some? {
        forall x | 0 <= x < |q.store| ensures Placed(Step(q, Read(n)), x) { assert Placed(q, x); }
      }
    }
    hide Placed;
  }

  lemma EndTidy(q: Queue)
    requires Tidy(q) && OutOfTheWay(q)
    ensures Tidy(Step(q, End)) && OutOfTheWay(Step(q, End))
  {
    forall x | 0 <= x < |q.store| ensures Placed(Step(q, End), x) { assert Placed(q, x); }
    hide Placed;
  }

  lemma StepTidy(q: Queue, h: Happening)
    requires Tidy(q) && OutOfTheWay(q)
    ensures Tidy(Step(q, h)) && OutOfTheWay(Step(q, h))
  {
    hide Tidy, OutOfTheWay, Step;
    match h
    case Request(url, priority, aborted) => RequestTidy(q, url, priority, aborted);
    case Cancel(id) => CancelTidy(q, id);
    case Read(n) => ReadTidy(q, n);
    case End => EndTidy(q);
    case Respond(_) => FetchTidy(q, h);
    case Fail => FetchTidy(q, h);
    case Finally => FinallyTidy(q);
    case _ => LineTidy(q, h);
  }

  lemma LineTidy(q: Queue, h: Happening)
    requires Tidy(q) && OutOfTheWay(q) && (h.SetEnabled? || h.ForegroundRequest? || h.ForegroundDone?)
    ensures Tidy(Step(q, h)) && OutOfTheWay(Step(q, h))
  {
    hide Placed, Changed;
    var q' := match h
      case SetEnabled(enabled) => q.(enabled := enabled)
      case ForegroundRequest =>
        q.(tokens := q.tokens + {q.nextToken}, nextToken := q.nextToken + 1, foreground := q.foreground + 1)
      case ForegroundDone(token) => q.(tokens := q.tokens - {token}, foreground := q.foreground - 1)
      case _ => q;
    if h.ForegroundDone? ==> h.token in q.tokens {
      AllPlaced(q, q');
      ChangedTidy(q');
    }
  }

  lemma FetchTidy(q: Queue, h: Happening)
    requires Tidy(q) && OutOfTheWay(q) && (h.Respond? || h.Fail?)
    ensures Tidy(Step(q, h)) && OutOfTheWay(Step(q, h))
  {
    hide Placed, Caught, Responded;
    if InFlight(q) {
      CaughtTidy(q);
      if h.Respond? { RespondedTidy(q, h.response); }
    }
  }

  lemma FinallyTidy(q: Queue)
    requires Tidy(q) && OutOfTheWay(q)
    ensures Tidy(Step(q, Finally)) && OutOfTheWay(Step(q, Finally))
  {
    hide Placed, Pump;
    if q.active.Some? && q.active.value.stage.Over? {
      var q' := q.(active := None, finished := q.finished + 1);
      AllPlaced(q, q');
      PumpTidy(q');
    }
  }

  lemma AllPlaced(q: Queue, q': Queue)
    requires Tidy(q) && q'.store == q.store && q'.jobs == q.jobs && InFlight(q) == InFlight(q')
    requires InFlight(q) ==> q.active == q'.active
    ensures forall id | 0 <= id < |q.store| :: Placed(q', id)
  {
    assert forall id | 0 <= id < |q.store| :: Placed(q, id) ==> Placed(q', id);
  }

  /**
   * At every moment at most one fetch is out, none is out uninterrupted while
   * visible work has the line, and every download still owed its answer is in
   * the queue once or in flight: interrupting one neither loses nor doubles it.
   */
  lemma {:induction false} OneAtATime(happenings: seq<Happening>)
    ensures var q := Run(happenings);
      && Tidy(q) && OutOfTheWay(q)
      && q.started - q.finished <= 1
      && (q.foreground > 0 <==> q.tokens != {})
  {
    if happenings != [] {
      var pre := happenings[..|happenings| - 1];
      OneAtATime(pre);
      StepTidy(Run(pre), happenings[|happenings| - 1]);
    }
  }

  // ---------------------------------------------------------------------------
  // What starts next
  // ---------------------------------------------------------------------------

  /** The most urgent job, and the earliest listed of its equals. */
  predicate Leads(store: seq<Job>, jobs: seq<JobId>, k: nat)
    requires k < |jobs|
  {
    && (forall i | 0 <= i < k :: PriorityOf(store, jobs[k]) < PriorityOf(store, jobs[i]))
    && (forall i | k <= i < |jobs| :: PriorityOf(store, jobs[k]) <= PriorityOf(store, jobs[i]))
  }

  lemma {:induction false} SortedHead(store: seq<Job>, jobs: seq<JobId>, k: nat)
    requires k < |jobs| && Leads(store, jobs, k)
    ensures Sorted(store, jobs)[0] == jobs[k]
  {
    hide PriorityOf;
    var rest, last := jobs[..|jobs| - 1], jobs[|jobs| - 1];
    var sorted := Sorted(store, rest);
    assert Sorted(store, jobs)[0] == if sorted == [] || PriorityOf(store, last) < PriorityOf(store, sorted[0]) then last else sorted[0];
    if k < |rest| {
      assert rest[k] == jobs[k];
      SortedHead(store, rest, k);
    } else if rest != [] {
      assert sorted[0] in rest;
      var i :| 0 <= i < |rest| && rest[i] == sorted[0];
      assert jobs[i] == sorted[0];
    }
  }

  /** A fetch starts only off the queue, only with the line free, and it is the most urgent job's, the earliest of its equals. */
  lemma PumpTakesTheMostUrgent(q: Queue, k: nat)
    requires Tidy(q) && !Busy(q) && q.active.None? && k < |q.jobs| && Leads(q.store, q.jobs, k)
    ensures q.jobs[k] in q.jobs && Pump(q).active == Some(FetchFor(q.jobs[k], q.store[q.jobs[k]]))
    ensures multiset(Pump(q).jobs) == multiset(q.jobs) - multiset{q.jobs[k]}
  {
    SortedHead(q.store, q.jobs, k);
    var sorted := Sorted(q.store, q.jobs);
    assert sorted == [sorted[0]] + sorted[1..];
    assert q.jobs[k] in q.jobs;
  }

  /** Over every run: a happening starts at most one fetch, and only on a free line with no other out. */
  lemma NoneStartsWhileBusy(happenings: seq<Happening>, h: Happening)
    ensures var q, q' := Run(happenings), Step(Run(happenings), h);
      && q.started <= q'.started <= q.started + 1
      && (q.started < q'.started ==>
          && !Busy(q') && q'.active.Some? && !q'.active.value.aborted && q'.active.value.stage.Waiting?
          && (q.active.None? || h.Finally?))
  {
    OneAtATime(happenings);
    StartsOnAFreeLine(Run(happenings), h);
  }

  lemma StartsOnAFreeLine(q: Queue, h: Happening)
    requires Tidy(q) && OutOfTheWay(q)
    ensures var q' := Step(q, h);
      && q.started <= q'.started <= q.started + 1
      && (q.started < q'.started ==>
          && !Busy(q') && q'.active.Some? && !q'.active.value.aborted && q'.active.value.stage.Waiting?
          && (q.active.None? || h.Finally?))
  {
    hide Tidy, Sorted, Joined, Settled, AllBut, PriorityOf;
  }

  /** Over every run, a fetch asks for what its job still lacks, on condition that it is the version begun wherever a tag can tell. */
  lemma AsksForTheRest(happenings: seq<Happening>, h: Happening)
    requires Run(happenings).started < Run(happenings + [h]).started
    ensures var q := Run(happenings + [h]);
      && q.active.Some? && q.active.value.job < |q.store|
      && var f, j := q.active.value, q.store[q.active.value.job];
         && f.range == (if j.received == 0 then None else Some(j.received))
         && f.ifRange == (if j.received > 0 && IsStrong(j.etag) then j.etag else None)
  {
    OneAtATime(happenings);
    assert (happenings + [h])[..|happenings|] == happenings;
    hide Run;
    StartsWithItsOwn(Run(happenings), h);
  }

  lemma StartsWithItsOwn(q: Queue, h: Happening)
    requires Tidy(q)
    ensures var q' := Step(q, h);
      q.started < q'.started ==>
        q'.active.Some? && q'.active.value.job < |q'.store|
        && q'.active.value == FetchFor(q'.active.value.job, q'.store[q'.active.value.job])
  {
    hide Tidy, Sorted, Joined, Settled, AllBut, PriorityOf, Busy;
  }

  /** A download asked for is owed, unless it was given up before it was asked for; and every other one is as it was. */
  lemma RequestIsTakenUp(happenings: seq<Happening>, url: string, priority: int, aborted: bool)
    ensures var q, q' := Run(happenings), Run(happenings + [Request(url, priority, aborted)]);
      var id := |q.store|;
      && |q'.store| == id + 1 && q'.store[..id] == q.store
      && q'.store[id].url == url && q'.store[id].priority == priority && q'.store[id].received == 0
      && (if aborted then q'.store[id].outcome.Rejected? && id !in q'.jobs
          else q'.store[id].outcome.Pending? && (id in q'.jobs || Runs(q', id)))
  {
    var h := Request(url, priority, aborted);
    OneAtATime(happenings);
    OneAtATime(happenings + [h]);
    assert (happenings + [h])[..|happenings|] == happenings;
    assert Placed(Run(happenings + [h]), |Run(happenings).store|);
    hide Run, Sorted;
  }

  /** A download cancelled while it is owed is owed no more: out of the queue, its fetch told to stop, and no other touched. */
  lemma CancelledIsStopped(happenings: seq<Happening>, id: JobId)
    requires id < |Run(happenings).store| && Run(happenings).store[id].outcome.Pending?
    ensures var q, q' := Run(happenings), Run(happenings + [Cancel(id)]);
      && id !in q'.jobs && |q'.store| == |q.store| && q'.store[id].cancelled && q'.store[id].outcome.Rejected?
      && (q.active.Some? && q.active.value.job == id ==> q'.active == Some(q.active.value.(aborted := true)))
      && (q.active.Some? && q.active.value.job != id ==> q'.active == q.active)
      && (forall x | 0 <= x < |q.store| && x != id :: q'.store[x] == q.store[x] && (x in q'.jobs <==> x in q.jobs))
  {
    OneAtATime(happenings);
    assert (happenings + [Cancel(id)])[..|happenings|] == happenings;
    assert Placed(Run(happenings), id);
    hide Run, Placed;
  }

  /** A free line leaves no download waiting, over every run. */
  lemma {:induction false} NothingWaitsOnAFreeLine(happenings: seq<Happening>)
    ensures var q := Run(happenings); !Busy(q) && q.active.None? ==> q.jobs == []
  {
    if happenings != [] {
      var pre := happenings[..|happenings| - 1];
      OneAtATime(pre);
      NothingWaitsOnAFreeLine(pre);
      FreeLineOneStep(Run(pre), happenings[|happenings| - 1]);
    }
  }

  lemma FreeLineOneStep(q: Queue, h: Happening)
    requires Tidy(q) && (!Busy(q) && q.active.None? ==> q.jobs == [])
    ensures var q' := Step(q, h); !Busy(q') && q'.active.None? ==> q'.jobs == []
  {
    hide Joined, Settled, PriorityOf, Placed, Pump;
    match h
    case Request(url, priority, aborted) =>
      if !aborted {
        PumpEmpties(q.(store := q.store + [Job(url, priority, false, None, 0, "", None, Pending)], jobs := q.jobs + [|q.store|]));
      }
    case SetEnabled(enabled) => PumpEmpties(q.(enabled := enabled));
    case ForegroundRequest =>
      PumpEmpties(q.(tokens := q.tokens + {q.nextToken}, nextToken := q.nextToken + 1, foreground := q.foreground + 1));
    case ForegroundDone(token) => PumpEmpties(q.(tokens := q.tokens - {token}, foreground := q.foreground - 1));
    case Finally => PumpEmpties(q.(active := None, finished := q.finished + 1));
    case Cancel(_) => SameLine(q, h);
    case _ =>
  }

  lemma SameLine(q: Queue, h: Happening)
    requires h.Cancel?
    ensures Busy(Step(q, h)) == Busy(q) && Step(q, h).active.None? == q.active.None?
    ensures q.jobs == [] ==> Step(q, h).jobs == []
  {
    hide Settled;
  }

  lemma PumpEmpties(q: Queue)
    requires forall id | id in q.jobs :: id < |q.store|
    ensures Busy(Pump(q)) == Busy(q)
    ensures !Busy(q) && Pump(q).active.None? ==> Pump(q).jobs == []
  {
    var sorted := Sorted(q.store, q.jobs);
    if sorted != [] { assert sorted[0] in q.jobs; }
  }

  // ---------------------------------------------------------------------------
  // What settles a promise
  // ---------------------------------------------------------------------------

  /** The job's own fetch is out and unsettled. */
  predicate Runs(q: Queue, id: JobId) {
    InFlight(q) && q.active.value.job == id
  }

  /** The fetch breaks off, gets an answer it has no use for, or gets more of a body it never began. */
  predicate Breaks(q: Queue, h: Happening)
    requires InFlight(q)
  {
    var j, stage := q.store[q.active.value.job], q.active.value.stage;
    match h
    case Fail => true
    case Respond(r) => stage.Waiting? && (!r.ok || (r.partial && r.first != Some(j.received)))
    case Read(n) => stage.Streaming? && 0 < n <= |stage.rest| && j.chunks.None?
    case _ => false
  }

  /** The last byte of this body has been read. */
  predicate Ends(q: Queue, h: Happening, blob: Bytes)
    requires InFlight(q)
  {
    && h.End?
    && match q.active.value.stage
       case Streaming(rest) => rest == [] && blob == Stored(q.store[q.active.value.job])
       case Gathering(rest) => blob == rest
       case _ => false
  }

  /**
   * Over every run, what settles the promise of a download still owed: it is
   * rejected exactly when it is cancelled or its fetch breaks uninterrupted, and
   * resolved exactly at the end of its body, with that body. A settled promise
   * stays as it settled.
   */
  lemma PromisesSettleOnCue(happenings: seq<Happening>, h: Happening, id: JobId)
    requires id < |Run(happenings).store|
    ensures id < |Run(happenings + [h]).store|
    ensures var q, j, j' := Run(happenings), Run(happenings).store[id], Run(happenings + [h]).store[id];
      && (!j.outcome.Pending? ==> j'.outcome == j.outcome)
      && (j.outcome.Pending? ==>
          && (j'.outcome.Rejected? <==> h == Cancel(id) || (Runs(q, id) && Breaks(q, h) && !q.active.value.aborted))
          && forall blob :: j'.outcome == Resolved(blob) <==> Runs(q, id) && Ends(q, h, blob))
  {
    OneAtATime(happenings);
    assert (happenings + [h])[..|happenings|] == happenings;
    assert Placed(Run(happenings), id);
    hide Run, Sorted, Joined, AllBut, PriorityOf, Stored, Placed;
    SettlesOnCue(Run(happenings), h, id);
  }

  lemma SettlesOnCue(q: Queue, h: Happening, id: JobId)
    requires id < |q.store| && (q.active.Some? ==> q.active.value.job < |q.store|)
    requires q.store[id].outcome.Pending? ==> !q.store[id].cancelled
    ensures id < |Step(q, h).store|
    ensures var j, j' := q.store[id], Step(q, h).store[id];
      && (!j.outcome.Pending? ==> j'.outcome == j.outcome)
      && (j.outcome.Pending? ==>
          && (j'.outcome.Rejected? <==> h == Cancel(id) || (Runs(q, id) && Breaks(q, h) && !q.active.value.aborted))
          && forall blob :: j'.outcome == Resolved(blob) <==> Runs(q, id) && Ends(q, h, blob))
  {
    hide Sorted, Joined, AllBut, PriorityOf, Stored, Pump;
    match h
    case End => hide Caught;
    case Fail =>
    case Respond(_) =>
    case Read(_) =>
    case Cancel(_) => hide Caught;
    case _ => OnlyTheLine(q, h, id);
  }

  lemma OnlyTheLine(q: Queue, h: Happening, id: JobId)
    requires id < |q.store| && (h.Request? || h.SetEnabled? || h.ForegroundRequest? || h.ForegroundDone? || h.Finally?)
    ensures id < |Step(q, h).store| && Step(q, h).store[id] == q.store[id]
  {
    hide Sorted, PriorityOf;
  }

  /** Interrupted, it loses nothing: it is first in line again, with all it had stored. */
  lemma InterruptedGoesFirst(happenings: seq<Happening>, h: Happening, id: JobId)
    requires var q := Run(happenings);
      Runs(q, id) && Breaks(q, h) && q.active.value.aborted && id < |q.store| && q.store[id].outcome.Pending?
    ensures var q, q' := Run(happenings), Run(happenings + [h]);
      && q'.jobs == [id] + q.jobs && q'.store == q.store
      && q'.active == Some(q.active.value.(stage := Over))
  {
    OneAtATime(happenings);
    assert (happenings + [h])[..|happenings|] == happenings;
    assert Placed(Run(happenings), id);
  }

  // ---------------------------------------------------------------------------
  // The queue in its own form
  // ---------------------------------------------------------------------------

  class BackgroundTraffic {
    var store: seq<Job>
    var jobs: seq<JobId>
    var active: Option<Fetch>
    var tokens: set<nat>
    var nextToken: nat
    var foreground: int
    var enabled: bool
    ghost var started: nat
    ghost var finished: nat

    constructor ()
      ensures Now() == EMPTY
    {
      store, jobs, active, tokens, nextToken := [], [], None, {}, 0;
      foreground, enabled, started, finished := 0, true, 0, 0;
    }

    ghost function Now(): Queue
      reads this
    {
      Queue(store, jobs, active, tokens, nextToken, foreground, enabled, started, finished)
    }

    predicate IsBusy()
      reads this
    {
      foreground > 0 || !enabled
    }

    method Request(url: string, priority: int, aborted: bool) returns (id: JobId)
      modifies this
      ensures id == old(|store|) && Now() == Step(old(Now()), Happening.Request(url, priority, aborted))
    {
      id := |store|;
      store := store + [Job(url, priority, aborted, None, 0, "", None, if aborted then Rejected else Pending)];
      if aborted { return; }
      jobs := jobs + [id];
      PumpNext();
    }

    method Cancel(id: JobId)
      modifies this
      ensures Now() == Step(old(Now()), Happening.Cancel(id))
    {
      if id >= |store| || store[id].cancelled { return; }
      var owed := store[id].outcome.Pending?;
      store := store[id := Settled(store[id].(cancelled := true), Rejected)];
      if !owed { return; }
      jobs := AllBut(jobs, id);
      if active.Some? && active.value.job == id { active := Some(active.value.(aborted := true)); }
    }

    method SetEnabled(on: bool)
      modifies this
      ensures Now() == Step(old(Now()), Happening.SetEnabled(on))
    {
      enabled := on;
      LineChanged();
    }

    /** Visible work takes the line; the token gives it back, once. */
    method TakeLine() returns (token: nat)
      modifies this
      ensures token == old(nextToken) && Now() == Step(old(Now()), ForegroundRequest)
    {
      hide Pump;
      token := nextToken;
      tokens, nextToken := tokens + {token}, token + 1;
      foreground := foreground + 1;
      LineChanged();
    }

    method GiveBack(token: nat)
      modifies this
      ensures Now() == Step(old(Now()), ForegroundDone(token))
    {
      if token !in tokens { return; }
      tokens := tokens - {token};
      foreground := foreground - 1;
      LineChanged();
    }

    method LineChanged()
      modifies this
      ensures Now() == Changed(old(Now()))
    {
      if IsBusy() {
        if active.Some? { active := Some(active.value.(aborted := true)); }
      } else {
        PumpNext();
      }
    }

    method PumpNext()
      modifies this
      ensures Now() == Pump(old(Now()))
    {
      hide FetchFor, Sorted;
      if IsBusy() || active.Some? { return; }
      jobs := Sorted(store, jobs);
      if |jobs| == 0 { return; }
      var id := jobs[0];
      jobs := jobs[1..];
      if id >= |store| { return; }
      active := Some(FetchFor(id, store[id]));
      started := started + 1;
    }

    method OnResponse(r: Response)
      requires InFlight(Now()) && active.value.stage.Waiting?
      modifies this
      ensures Now() == Step(old(Now()), Respond(r))
    {
      hide Settled;
      var f := active.value;
      var job := store[f.job];
      if !r.ok || (r.partial && r.first != Some(job.received)) { OnError(); return; }
      if !r.partial {
        job := job.(chunks := Some([]), received := 0, mime := r.mime, etag := r.etag);
        store := store[f.job := job];
      }
      if !r.hasBody || (!r.partial && !r.ranges) || r.encoded {
        active := Some(f.(stage := Gathering(r.body)));
      } else {
        active := Some(f.(stage := Streaming(r.body)));
      }
    }

    method OnChunk(n: nat)
      requires InFlight(Now()) && active.value.stage.Streaming? && 0 < n <= |active.value.stage.rest|
      modifies this
      ensures Now() == Step(old(Now()), Read(n))
    {
      var f := active.value;
      var job := store[f.job];
      if job.chunks.None? { OnError(); return; }
      store := store[f.job :=
        job.(chunks := Some(job.chunks.value + [f.stage.rest[..n]]), received := job.received + n)];
      active := Some(f.(stage := Streaming(f.stage.rest[n..])));
    }

    method OnEnd()
      requires InFlight(Now()) && (active.value.stage.Gathering? || active.value.stage == Streaming([]))
      modifies this
      ensures Now() == Step(old(Now()), End)
    {
      var f := active.value;
      var blob := if f.stage.Gathering? then f.stage.rest else Stored(store[f.job]);
      store := store[f.job := Settled(store[f.job], Resolved(blob))];
      active := Some(f.(stage := Over));
    }

    method OnError()
      requires InFlight(Now())
      modifies this
      ensures Now() == Step(old(Now()), Fail) && Now() == Caught(old(Now()))
    {
      var f := active.value;
      active := Some(f.(stage := Over));
      if f.aborted && !store[f.job].cancelled {
        jobs := [f.job] + jobs;
      } else {
        store := store[f.job := Settled(store[f.job], Rejected)];
      }
    }

    method OnFinally()
      requires active.Some? && active.value.stage.Over?
      modifies this
      ensures Now() == Step(old(Now()), Finally)
    {
      active := None;
      finished := finished + 1;
      PumpNext();
    }
  }

  // ---------------------------------------------------------------------------
  // Without a strong tag
  // ---------------------------------------------------------------------------

  /** A resource that changes under a weak tag. */
  const REISSUED: Server := (_, t) => Version(if t == 0 then [1, 1] else [2, 2], Some("W/1"))

  const WHOLE := Response(true, false, None, "", Some("W/1"), true, false, true, [1, 1])
  const REST := Response(true, true, Some(1), "", Some("W/1"), true, false, true, [2])
  const HALF := Job("u", 0, false, Some([[1]]), 1, "", Some("W/1"), Pending)
  const MIXED := HALF.(chunks := Some([[1], [2]]), received := 2)

  const STOPPED := Queue([HALF], [0], Some(Fetch(0, None, None, true, Over)), {0}, 1, 1, true, 1, 0)
  const RESUMED := Queue([HALF], [], Some(Fetch(0, Some(1), None, false, Waiting)), {}, 1, 0, true, 2, 1)

  ghost predicate Reaches(server: Server, happenings: seq<Happening>, q: Queue) {
    AllPlausible(server, happenings) && Run(happenings) == q
  }

  lemma Onward(server: Server, pre: seq<Happening>, q: Queue, h: Happening, q': Queue) returns (all: seq<Happening>)
    requires Reaches(server, pre, q) && Plausible(server, q, h) && Step(q, h) == q'
    ensures Reaches(server, all, q')
  {
    hide Step, Plausible;
    all := pre + [h];
    assert all[..|pre|] == pre;
    forall k | 0 <= k < |all| ensures Plausible(server, Run(all[..k]), all[k]) {
      if k < |pre| { assert all[..k] == pre[..k]; }
    }
  }

  const ASKED := Fetch(0, None, None, false, Waiting)
  const STREAMING := Queue([HALF.(chunks := Some([]), received := 0)], [],
    Some(ASKED.(stage := Streaming([1, 1]))), {}, 0, 0, true, 1, 0)

  lemma FirstHeaders() returns (run: seq<Happening>)
    ensures Reaches(REISSUED, run, STREAMING)
  {
    hide Reaches;
    assert Reaches(REISSUED, [], EMPTY) by { NothingYet(); }
    var q1 := Queue([Job("u", 0, false, None, 0, "", None, Pending)], [], Some(ASKED), {}, 0, 0, true, 1, 0);
    assert Sorted(q1.store, [0]) == [0];
    run := Onward(REISSUED, [], EMPTY, Request("u", 0, false), q1);
    assert AnswersFrom(REISSUED("u", 0), ASKED, WHOLE);
    run := Onward(REISSUED, run, q1, Respond(WHOLE), STREAMING);
  }

  lemma HalfwayThenStopped(pre: seq<Happening>) returns (run: seq<Happening>)
    requires Reaches(REISSUED, pre, STREAMING)
    ensures Reaches(REISSUED, run, STOPPED)
  {
    hide Reaches;
    var q1 := STREAMING.(store := [HALF], active := Some(ASKED.(stage := Streaming([1]))));
    var body: Bytes := [1, 1];
    assert body[..1] == [1] && body[1..] == [1];
    assert STREAMING.store[0].chunks.value + [body[..1]] == [[1]];
    run := Onward(REISSUED, pre, STREAMING, Read(1), q1);
    var q2 := q1.(tokens := {0}, nextToken := 1, foreground := 1,
      active := Some(ASKED.(stage := Streaming([1]), aborted := true)));
    run := Onward(REISSUED, run, q1, ForegroundRequest, q2);
    run := Onward(REISSUED, run, q2, Fail, STOPPED);
  }

  lemma NothingYet()
    ensures Reaches(REISSUED, [], EMPTY)
  {
  }

  lemma ThenResumed(pre: seq<Happening>) returns (run: seq<Happening>)
    requires Reaches(REISSUED, pre, STOPPED)
    ensures Reaches(REISSUED, run, RESUMED)
  {
    hide Reaches;
    var q1 := STOPPED.(active := None, finished := 1);
    run := Onward(REISSUED, pre, STOPPED, Finally, q1);
    assert Sorted([HALF], [0]) == [0];
    run := Onward(REISSUED, run, q1, ForegroundDone(0), RESUMED);
  }

  lemma ThenMixed(pre: seq<Happening>) returns (run: seq<Happening>, q: Queue)
    requires Reaches(REISSUED, pre, RESUMED)
    ensures Reaches(REISSUED, run, q) && q.store == [MIXED.(outcome := Resolved([1, 2]))]
  {
    hide Reaches;
    var f := Fetch(0, Some(1), None, false, Waiting);
    assert AnswersFrom(REISSUED("u", 1), f, REST);
    var q1 := RESUMED.(active := Some(f.(stage := Streaming([2]))));
    run := Onward(REISSUED, pre, RESUMED, Respond(REST), q1);
    var q2 := q1.(store := [MIXED], active := Some(f.(stage := Streaming([]))));
    var body: Bytes := [2];
    assert body[..1] == [2] && body[1..] == [];
    assert HALF.chunks.value + [body[..1]] == MIXED.chunks.value;
    run := Onward(REISSUED, run, q1, Read(1), q2);
    var chunks := MIXED.chunks.value;
    assert chunks[..1] == HALF.chunks.value;
    assert Joined(chunks) == Joined(chunks[..1]) + [2];
    assert HALF.chunks.value[..0] == [];
    assert Joined(HALF.chunks.value) == Joined([]) + [1];
    assert Joined(chunks) == [1, 2];
    q := Step(q2, End);
    run := Onward(REISSUED, run, q2, End, q);
  }

  /** Trust is needed: resumed over a weak tag, a download can resolve to half of one version and half of another. */
  lemma WeakTagsMix() returns (happenings: seq<Happening>)
    ensures AllPlausible(REISSUED, happenings) && !Trustworthy(REISSUED)
    ensures |Run(happenings).store| == 1
    ensures Run(happenings).store[0].url == "u" && Run(happenings).store[0].outcome == Resolved([1, 2])
    ensures !IsVersion(REISSUED, "u", [1, 2])
  {
    happenings := FirstHeaders();
    happenings := HalfwayThenStopped(happenings);
    happenings := ThenResumed(happenings);
    var q: Queue;
    happenings, q := ThenMixed(happenings);
    assert REISSUED("u", 0).bytes != REISSUED("u", 1).bytes;
  }
}
