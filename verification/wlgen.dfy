/** The workload generator (wlgen.go): the pacing loop of one client
    population, with its count bound and deadline, and the one outcome every
    dispatched request reports. The loop is sequential here: each dispatched
    request reports its outcome at once, and the sleeper is an event. */
module WorkLoad {
  import opened Wrappers
  import opened RequestFactory

  /** An opaque `*http.Response`. */
  datatype Response = Response(handle: nat)

  /** Why a request has no usable response: its build failed before any
      network I/O, or the transport reported an error. */
  datatype RequestError = BuildFailed(cause: BuildError) | TransportFailed(message: string)

  /** What one dispatched request reports on the result channel. */
  datatype ResponseInfo = ResponseInfo(response: Option<Response>, duration: int, error: Option<RequestError>)

  /** What `client.Do` returned for a request, with the time it took. */
  datatype Reply = Reply(response: Option<Response>, error: Option<string>, elapsed: int)

  /** One population's bounds: a count (`<= 0` for none), a duration in
      nanoseconds (`<= 0` for none) and the wait before the first request. */
  datatype WorkLoadGenerator = WorkLoadGenerator(maxNrReq: int, maxDuration: int, firstWait: int)

  /** Everything the loop observes of the world: successive `time.Now()`
      readings of the loop, the time at which request `i` is built, the
      template collaborators, and the transport's reply to request `i`. */
  datatype Env<!T> = Env(
    clock: nat -> int,
    stamp: nat -> int,
    templates: Templates<T>,
    transport: (nat, Request) -> Reply)

  /** Observable steps of a run: the initial sleep, the start of request
      `index`, and one call of the sleeper. */
  datatype Event = Slept(duration: int) | Dispatched(index: nat) | Paced

  /** Why the loop ended; `Terminated` is the process being stopped from
      outside while the loop would have gone on. */
  datatype Stop = CountReached | DeadlinePassed | Terminated

  /** The deadline: the first clock reading plus the duration when the
      duration is positive, and otherwise none (Go's zero time). */
  function Deadline<T>(g: WorkLoadGenerator, env: Env<T>): (d: Option<int>)
    ensures d.Some? <==> g.maxDuration > 0
    ensures d.Some? ==> d.value - g.maxDuration == env.clock(0)
  {
    if g.maxDuration > 0 then Some(env.clock(0) + g.maxDuration) else None
  }

  /** The clock reading taken by the deadline check before request `i`. */
  function CheckTime<T>(env: Env<T>, i: nat): int {
    env.clock(i + 1)
  }

  /** The factory after one dispatch, and what that dispatch reported. */
  datatype Issue<T> = Issue(factory: Factory<T>, info: ResponseInfo)

  /** The goroutine of request `i`: build the request (no body of its own, so
      a templated factory fills it), then either report the build error or
      send it and report the transport's reply. */
  function Dispatch<T>(fac: Factory<T>, env: Env<T>, httpMethod: string, url: string, i: nat): (d: Issue<T>)
    ensures var b := NewRequest(fac, env.templates, httpMethod, url, None, env.stamp(i));
      && d.factory == b.factory
      && (b.request.Failure? <==> d.info.error.Some? && d.info.error.value.BuildFailed?)
      && (b.request.Failure? ==> d.info == ResponseInfo(None, 0, Some(BuildFailed(b.request.error))))
      && (b.request.Success? ==>
            var reply := env.transport(i, b.request.value);
            && d.info.response == reply.response
            && d.info.duration == reply.elapsed
            && (d.info.error.Some? <==> reply.error.Some?)
            && (reply.error.Some? ==> d.info.error == Some(TransportFailed(reply.error.value))))
  {
    var b := NewRequest(fac, env.templates, httpMethod, url, None, env.stamp(i));
    match b.request
    case Failure(e) => Issue(b.factory, ResponseInfo(None, 0, Some(BuildFailed(e))))
    case Success(req) =>
      var reply := env.transport(i, req);
      var err := match reply.error
        case None => None
        case Some(m) => Some(TransportFailed(m));
      Issue(b.factory, ResponseInfo(reply.response, reply.elapsed, err))
  }

  /** The factory after `n` dispatches: each one consumes exactly one id of a
      templated factory, and a factory without template never changes. */
  ghost function FactoryAt<T>(fac: Factory<T>, n: nat): Factory<T> {
    if fac.template.Some? then fac.(nextId := Wrap32(fac.nextId as int + n)) else fac
  }

  /** The request after a dispatch sees the factory one step further on. */
  lemma DispatchAdvances<T>(fac: Factory<T>, env: Env<T>, httpMethod: string, url: string, n: nat)
    ensures Dispatch(FactoryAt(fac, n), env, httpMethod, url, n).factory == FactoryAt(fac, n + 1)
  {
    if fac.template.Some? {
      Wrap32Succ(fac.nextId as int + n);
    }
  }

  /** The events of `n` loop iterations: start request i, then pace. */
  function Schedule(n: nat): (s: seq<Event>)
    ensures |s| == 2 * n
  {
    seq(2 * n, j requires 0 <= j => if j % 2 == 0 then Dispatched(j / 2) else Paced)
  }

  /** In the schedule every request is started exactly once, in order, and
      each start is followed by one sleeper call. */
  lemma ScheduleShape(n: nat)
    ensures forall k :: 0 <= k < n ==> Schedule(n)[2 * k] == Dispatched(k) && Schedule(n)[2 * k + 1] == Paced
  {
    forall k | 0 <= k < n
      ensures Schedule(n)[2 * k] == Dispatched(k) && Schedule(n)[2 * k + 1] == Paced
    {
      assert (2 * k) % 2 == 0 && (2 * k) / 2 == k;
      assert (2 * k + 1) % 2 == 1 && (2 * k + 1) / 2 == k;
    }
  }

  /** One more iteration appends one start and one sleeper call. */
  lemma ScheduleStep(n: nat)
    ensures Schedule(n + 1) == Schedule(n) + [Dispatched(n), Paced]
  {
    var s, t := Schedule(n + 1), Schedule(n) + [Dispatched(n), Paced];
    forall j | 0 <= j < |s|
      ensures s[j] == t[j]
    {
      if j < 2 * n {
        assert t[j] == Schedule(n)[j];
      }
    }
  }

  /** `Start`, run until it returns or until `fuel` requests have been
      issued and the process is stopped. Returns the outcomes sent on the
      result channel (all of them are there when `Start` returns), the
      events in order, the factory afterwards, and why the loop ended. */
  method Start<T>(g: WorkLoadGenerator, fac: Factory<T>, env: Env<T>, httpMethod: string, url: string,
                  fuel: nat) returns (sent: seq<ResponseInfo>, events: seq<Event>, last: Factory<T>, stop: Stop)
    ensures |sent| <= fuel
    ensures events == [Slept(g.firstWait)] + Schedule(|sent|)
    ensures forall k :: 0 <= k < |sent| ==> sent[k] == Dispatch(FactoryAt(fac, k), env, httpMethod, url, k).info
    ensures last == FactoryAt(fac, |sent|)
    ensures g.maxNrReq > 0 ==> |sent| <= g.maxNrReq
    ensures stop == CountReached <==> g.maxNrReq > 0 && |sent| == g.maxNrReq
    ensures stop == DeadlinePassed ==> g.maxDuration > 0 && CheckTime(env, |sent|) > Deadline(g, env).value
    ensures g.maxDuration > 0 ==> forall k :: 0 <= k < |sent| ==> CheckTime(env, k) <= Deadline(g, env).value
    ensures stop == Terminated ==> |sent| == fuel
    ensures g.maxNrReq > 0 && g.maxDuration <= 0 && fuel >= g.maxNrReq ==>
      |sent| == g.maxNrReq && stop == CountReached
    ensures g.maxNrReq <= 0 && g.maxDuration <= 0 ==> |sent| == fuel && stop == Terminated
  {
    var deadline := Deadline(g, env);
    sent, events, last := [], [Slept(g.firstWait)], fac;
    var i: nat := 0;
    assert last == FactoryAt(fac, 0) by {
      if fac.template.Some? {
        assert Wrap32(fac.nextId as int) == fac.nextId;
      }
    }
    while true
      invariant i == |sent| <= fuel
      invariant g.maxNrReq > 0 ==> i <= g.maxNrReq
      invariant events == [Slept(g.firstWait)] + Schedule(i)
      invariant last == FactoryAt(fac, i)
      invariant forall k :: 0 <= k < i ==> sent[k] == Dispatch(FactoryAt(fac, k), env, httpMethod, url, k).info
      invariant deadline.Some? ==> forall k :: 0 <= k < i ==> CheckTime(env, k) <= deadline.value
      decreases fuel - i
    {
      if !(i < g.maxNrReq || g.maxNrReq <= 0) {
        stop := CountReached;
        break;
      }
      if deadline.Some? && CheckTime(env, i) > deadline.value {
        stop := DeadlinePassed;
        break;
      }
      if i == fuel {
        stop := Terminated;
        break;
      }
      var issue := Dispatch(last, env, httpMethod, url, i);
      DispatchAdvances(fac, env, httpMethod, url, i);
      last := issue.factory;
      sent := sent + [issue.info];
      events := events + [Dispatched(i), Paced];
      ScheduleStep(i);
      i := i + 1;
    }
  }
}
