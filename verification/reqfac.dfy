/** The request factory (reqfac.go): a request-id counter and the choice of
    request body. */
module RequestFactory {
  import opened Wrappers

  /** Go's `int32`. */
  newtype int32 = x: int | -0x8000_0000 <= x < 0x8000_0000

  /** Two's-complement wrap-around of `atomic.AddInt32`. */
  function Wrap32(x: int): (r: int32)
    ensures -0x8000_0000 <= x < 0x8000_0000 ==> r as int == x
    ensures (r as int - x) % 0x1_0000_0000 == 0
  {
    ((x + 0x8000_0000) % 0x1_0000_0000 - 0x8000_0000) as int32
  }

  /** Adding one after wrapping is wrapping after adding one. */
  lemma Wrap32Succ(x: int)
    ensures Wrap32(Wrap32(x) as int + 1) == Wrap32(x + 1)
  {
    var a := x + 0x8000_0000;
    var q := a / 0x1_0000_0000;
    var r := a % 0x1_0000_0000;
    assert a == q * 0x1_0000_0000 + r;
    assert Wrap32(x) as int + 1 + 0x8000_0000 == r + 1;
    if r + 1 < 0x1_0000_0000 {
      assert a + 1 == q * 0x1_0000_0000 + (r + 1);
    } else {
      assert a + 1 == (q + 1) * 0x1_0000_0000;
    }
  }

  /** The variables a body template sees: the request id and the time. */
  datatype BodyVars = BodyVars(id: int32, now: int)

  /** A factory; `T` is the parsed template, `None` when there is none. */
  datatype Factory<T> = Factory(template: Option<T>, nextId: int32)

  /** A request as `http.NewRequest` would build it. */
  datatype Request = Request(httpMethod: string, url: string, body: Option<string>)

  datatype BuildError = TemplateRejected | ExecFailed | InvalidRequest

  /** The external collaborators: the template parser, template execution,
      and whether `http.NewRequest` accepts a method and URL. */
  datatype Templates<!T> = Templates(
    parse: string -> Option<T>,
    execute: (T, BodyVars) -> Option<string>,
    accepts: (string, string) -> bool)

  /** An empty template gives a factory without template; otherwise the text
      must parse. A fresh factory's counter is zero. */
  function NewRequestFactory<T>(tmpl: string, lib: Templates<T>): (r: Result<Factory<T>, BuildError>)
    ensures tmpl == [] ==> r == Success(Factory(None, 0))
    ensures tmpl != [] ==> (r.Success? <==> lib.parse(tmpl).Some?)
    ensures r.Success? ==> r.value.nextId == 0
    ensures r.Success? && tmpl != [] ==> r.value.template == lib.parse(tmpl)
    ensures r.Failure? ==> r.error == TemplateRejected
  {
    if |tmpl| > 0 then
      match lib.parse(tmpl)
      case None => Failure(TemplateRejected)
      case Some(t) => Success(Factory(Some(t), 0))
    else Success(Factory(None, 0))
  }

  /** The factory after a call, and the request or error the call returned. */
  datatype Built<T> = Built(factory: Factory<T>, request: Result<Request, BuildError>)

  /** Whether a call fills the body from the template. */
  predicate Templated<T>(fac: Factory<T>, body: Option<string>) {
    body.None? && fac.template.Some?
  }

  /** One `NewRequest` call at time `now`. With a template and no body the
      counter is advanced first and the new value is the id the template
      sees; otherwise the given body is passed through. */
  function NewRequest<T>(fac: Factory<T>, lib: Templates<T>, httpMethod: string, url: string,
                         body: Option<string>, now: int): (b: Built<T>)
    ensures Templated(fac, body) ==> b.factory == fac.(nextId := Wrap32(fac.nextId as int + 1))
    ensures !Templated(fac, body) ==> b.factory == fac
    ensures Templated(fac, body) ==>
      var vars := BodyVars(b.factory.nextId, now);
      match lib.execute(fac.template.value, vars)
      case None => b.request == Failure(ExecFailed)
      case Some(text) => b.request.Success? ==> b.request.value.body == Some(text)
    ensures !Templated(fac, body) && b.request.Success? ==> b.request.value.body == body
    ensures b.request.Success? ==> b.request.value.httpMethod == httpMethod && b.request.value.url == url
    ensures b.request.Failure? && !(Templated(fac, body) && lib.execute(fac.template.value, BodyVars(b.factory.nextId, now)).None?) ==>
      b.request.error == InvalidRequest
    ensures !Templated(fac, body) ==> (b.request.Success? <==> lib.accepts(httpMethod, url))
    ensures Templated(fac, body) && lib.execute(fac.template.value, BodyVars(b.factory.nextId, now)).Some? ==>
      (b.request.Success? <==> lib.accepts(httpMethod, url))
  {
    if body.None? && fac.template.Some? then
      var id := Wrap32(fac.nextId as int + 1);
      var fac' := fac.(nextId := id);
      match lib.execute(fac.template.value, BodyVars(id, now))
      case None => Built(fac', Failure(ExecFailed))
      case Some(text) => Built(fac', HttpNewRequest(lib, httpMethod, url, Some(text)))
    else Built(fac, HttpNewRequest(lib, httpMethod, url, body))
  }

  /** `http.NewRequest`, reduced to whether it accepts the method and URL. */
  function HttpNewRequest<T>(lib: Templates<T>, httpMethod: string, url: string, body: Option<string>): Result<Request, BuildError> {
    if lib.accepts(httpMethod, url) then Success(Request(httpMethod, url, body)) else Failure(InvalidRequest)
  }

  /** `n` templated calls in a row, at times `clock(0)`, `clock(1)`, ...;
      returns the ids the template saw, in call order. */
  method NewRequests<T>(fac: Factory<T>, lib: Templates<T>, httpMethod: string, url: string,
                        clock: nat -> int, n: nat) returns (ids: seq<int32>, last: Factory<T>)
    requires fac.template.Some?
    requires fac.nextId as int + n < 0x8000_0000
    ensures |ids| == n
    ensures forall i :: 0 <= i < n ==> ids[i] as int == fac.nextId as int + i + 1
    ensures last == fac.(nextId := (fac.nextId as int + n) as int32)
  {
    ids := [];
    last := fac;
    var i := 0;
    while i < n
      invariant i <= n
      invariant |ids| == i
      invariant forall k :: 0 <= k < i ==> ids[k] as int == fac.nextId as int + k + 1
      invariant last == fac.(nextId := (fac.nextId as int + i) as int32)
    {
      var b := NewRequest(last, lib, httpMethod, url, None, clock(i));
      last := b.factory;
      ids := ids + [last.nextId];
      i := i + 1;
    }
  }

  /** On a fresh factory, `n` templated calls use the ids 1, 2, ..., n, each
      exactly once, whether or not the template executes. */
  method FreshIds<T>(tmpl: string, lib: Templates<T>, httpMethod: string, url: string,
                     clock: nat -> int, n: nat) returns (ids: seq<int32>)
    requires tmpl != [] && lib.parse(tmpl).Some?
    requires n < 0x8000_0000
    ensures |ids| == n
    ensures forall i :: 0 <= i < n ==> ids[i] as int == i + 1
    ensures forall i, j :: 0 <= i < j < n ==> ids[i] != ids[j]
  {
    var fac := NewRequestFactory(tmpl, lib).value;
    var last;
    ids, last := NewRequests(fac, lib, httpMethod, url, clock, n);
  }

  /** A failing template still consumes its id: the next templated call sees
      the id after it. */
  lemma FailedExecutionConsumesId<T>(fac: Factory<T>, lib: Templates<T>, httpMethod: string, url: string, now: int, later: int)
    requires fac.template.Some? && fac.nextId < 0x7FFF_FFFE
    requires lib.execute(fac.template.value, BodyVars(fac.nextId + 1, now)).None?
    ensures NewRequest(fac, lib, httpMethod, url, None, now).request == Failure(ExecFailed)
    ensures var next := NewRequest(fac, lib, httpMethod, url, None, now).factory;
      NewRequest(next, lib, httpMethod, url, None, later).factory.nextId == fac.nextId + 2
  {
  }
}
