/** The lifecycle of one `FetchRequest`: `perform`, `receive` and `cancel`.

    The network call, the event bus and the delegate are outside the model;
    what they decide becomes an input: the outcome of `fetch`, whether a
    listener prevented the default of `before-fetch-response`, the
    response's `succeeded` flag, and the set of delegate callbacks that
    throw. Everything the request does to the outside world is appended, in
    order, to the request's `log`. */
module Lifecycle {
  import opened Wrappers
  import opened FetchMappings
  import opened FormUrlEncoded
  import opened RequestShaping

  /** The raw `Response` that `fetch` resolves with. */
  datatype RawResponse = RawResponse(status: int, body: string)

  /** A `FetchResponse`, the wrapper made around the raw response. */
  datatype FetchResponse = FetchResponse(response: RawResponse)

  /** The members of the delegate interface. */
  datatype Callback =
    | AdditionalHeadersForRequest
    | RequestStarted
    | RequestPreventedHandlingResponse
    | RequestSucceededWithResponse
    | RequestFailedWithResponse
    | RequestErrored
    | RequestFinished

  /** What `perform` can raise: a network failure, the abort of the
      request's signal, or an exception thrown by a delegate callback. */
  datatype Error = NetworkError(reason: string) | AbortError | DelegateError(thrownBy: Callback)

  /** How the `fetch` call settles when the request is not already aborted. */
  datatype FetchResult = Responded(response: RawResponse) | Rejected(error: Error)

  /** A call to one of the delegate's six notification callbacks, with its
      arguments other than the request. */
  datatype Notification =
    | Started
    | PreventedHandlingResponse(response: FetchResponse)
    | SucceededWithResponse(response: FetchResponse)
    | FailedWithResponse(response: FetchResponse)
    | Errored(error: Error)
    | Finished

  /** An event dispatched on the document's event bus. */
  datatype Event = BeforeFetchRequest(fetchOptions: FetchOptions) | BeforeFetchResponse(fetchResponse: FetchResponse)

  /** Something a request does to the outside world: `AskedHeaders` is the
      call of the delegate's `additionalHeadersForRequest`, made while the
      fetch options are read. */
  datatype Effect =
    | AskedHeaders
    | Dispatched(event: Event)
    | Fetched(url: string, options: FetchOptions)
    | Notified(notification: Notification)

  /** The effects of a step and how it ends: a value or a raised error. */
  datatype Outcome = Outcome(effects: seq<Effect>, result: Result<FetchResponse, Error>)

  /** The delegate, as far as the request can tell it apart: whether it has
      `additionalHeadersForRequest`, and the headers that returns. */
  datatype Delegate = Delegate(additionalHeadersForRequest: Option<Headers>)

  function CallbackOf(n: Notification): Callback
  {
    match n
    case Started => RequestStarted
    case PreventedHandlingResponse(_) => RequestPreventedHandlingResponse
    case SucceededWithResponse(_) => RequestSucceededWithResponse
    case FailedWithResponse(_) => RequestFailedWithResponse
    case Errored(_) => RequestErrored
    case Finished => RequestFinished
  }

  /** A notification that hands over a response. */
  predicate IsVerdict(n: Notification)
  {
    n.PreventedHandlingResponse? || n.SucceededWithResponse? || n.FailedWithResponse?
  }

  /** The delegate calls among a sequence of effects, in order. */
  function Notifications(effects: seq<Effect>): seq<Notification>
  {
    if effects == [] then []
    else if effects[0].Notified? then [effects[0].notification] + Notifications(effects[1..])
    else Notifications(effects[1..])
  }

  lemma {:induction false} NotificationsAppend(a: seq<Effect>, b: seq<Effect>)
    ensures Notifications(a + b) == Notifications(a) + Notifications(b)
  {
    if a == [] {
      assert a + b == b;
    } else {
      assert (a + b)[1..] == a[1..] + b;
      NotificationsAppend(a[1..], b);
    }
  }

  // ---------------------------------------------------------------------
  // The specification of receive and perform
  // ---------------------------------------------------------------------

  /** The verdict `receive` reports for a response: prevention takes
      precedence over `succeeded`. */
  function Verdict(fetchResponse: FetchResponse, prevented: bool, succeeded: bool): Notification
  {
    if prevented then PreventedHandlingResponse(fetchResponse)
    else if succeeded then SucceededWithResponse(fetchResponse)
    else FailedWithResponse(fetchResponse)
  }

  /** `receive`: dispatch `before-fetch-response`, then report the verdict. */
  function ReceiveSpec(raw: RawResponse, prevented: bool, succeeded: bool, throws: set<Callback>): Outcome
  {
    var fetchResponse := FetchResponse(raw);
    var verdict := Verdict(fetchResponse, prevented, succeeded);
    Outcome(
      [Dispatched(BeforeFetchResponse(fetchResponse)), Notified(verdict)],
      if CallbackOf(verdict) in throws then Err(DelegateError(CallbackOf(verdict))) else Ok(fetchResponse))
  }

  /** How `fetch` settles: an already aborted signal rejects at once. */
  function FetchOutcome(aborted: bool, fetched: FetchResult): FetchResult
  {
    if aborted then Rejected(AbortError) else fetched
  }

  /** The `try` block of `perform`. */
  function TrySpec(url: string, options: FetchOptions, aborted: bool, fetched: FetchResult,
                   prevented: bool, succeeded: bool, throws: set<Callback>): Outcome
  {
    if RequestStarted in throws then
      Outcome([Notified(Started)], Err(DelegateError(RequestStarted)))
    else
      var sent := [Notified(Started), Fetched(url, options)];
      match FetchOutcome(aborted, fetched)
      case Rejected(e) => Outcome(sent, Err(e))
      case Responded(raw) =>
        var received := ReceiveSpec(raw, prevented, succeeded, throws);
        Outcome(sent + received.effects, received.result)
  }

  /** The `catch` block: report the error to the delegate and raise it again
      (or raise what `requestErrored` itself throws). */
  function CatchSpec(o: Outcome, throws: set<Callback>): Outcome
  {
    match o.result
    case Ok(_) => o
    case Err(e) =>
      Outcome(o.effects + [Notified(Errored(e))],
              Err(if RequestErrored in throws then DelegateError(RequestErrored) else e))
  }

  /** The `finally` block: `requestFinished` on every path. */
  function FinallySpec(o: Outcome, throws: set<Callback>): Outcome
  {
    Outcome(o.effects + [Notified(Finished)],
            if RequestFinished in throws then Err(DelegateError(RequestFinished)) else o.result)
  }

  /** The whole `try`/`catch`/`finally` statement of `perform`. */
  function SettleSpec(url: string, options: FetchOptions, aborted: bool, fetched: FetchResult,
                      prevented: bool, succeeded: bool, throws: set<Callback>): Outcome
  {
    FinallySpec(CatchSpec(TrySpec(url, options, aborted, fetched, prevented, succeeded, throws), throws), throws)
  }

  /** Whether reading `fetchOptions` (which calls the delegate's
      `additionalHeadersForRequest`, before the `try`) throws. */
  predicate HeadersThrow(delegate: Delegate, throws: set<Callback>)
  {
    delegate.additionalHeadersForRequest.Some? && AdditionalHeadersForRequest in throws
  }

  /** The `try`/`catch`/`finally` statement never asks for headers again. */
  lemma SettleNeverAsks(url: string, options: FetchOptions, aborted: bool, fetched: FetchResult,
                        prevented: bool, succeeded: bool, throws: set<Callback>)
    ensures AskedHeaders !in SettleSpec(url, options, aborted, fetched, prevented, succeeded, throws).effects
  {
    var tried := TrySpec(url, options, aborted, fetched, prevented, succeeded, throws);
    assert AskedHeaders !in tried.effects by {
      if RequestStarted !in throws && FetchOutcome(aborted, fetched).Responded? {
        var received := ReceiveSpec(FetchOutcome(aborted, fetched).response, prevented, succeeded, throws);
        assert tried.effects == [Notified(Started), Fetched(url, options)] + received.effects;
      }
    }
    var caught := CatchSpec(tried, throws);
    assert AskedHeaders !in caught.effects;
  }

  /** The effects of reading the fetch options: one call of
      `additionalHeadersForRequest` when the delegate has it, none otherwise. */
  function AskHeaders(delegate: Delegate): seq<Effect>
  {
    if delegate.additionalHeadersForRequest.Some? then [AskedHeaders] else []
  }

  /** `perform` once `additionalHeadersForRequest` has returned or thrown:
      an exception from it propagates; otherwise `before-fetch-request` is
      dispatched and the `try`/`catch`/`finally` statement runs. */
  function SendSpec(d: Descriptor, delegate: Delegate, aborted: bool, fetched: FetchResult,
                    prevented: bool, succeeded: bool, throws: set<Callback>): Outcome
  {
    if HeadersThrow(delegate, throws) then
      Outcome([], Err(DelegateError(AdditionalHeadersForRequest)))
    else
      var options := FetchOptionsOf(d, delegate.additionalHeadersForRequest);
      var settled := SettleSpec(Url(d), options, aborted, fetched, prevented, succeeded, throws);
      Outcome([Dispatched(BeforeFetchRequest(options))] + settled.effects, settled.result)
  }

  lemma AppendAssociates(a: seq<Effect>, b: seq<Effect>, c: seq<Effect>)
    ensures a + (b + c) == a + b + c
  {
  }

  /** `perform`. */
  function PerformSpec(d: Descriptor, delegate: Delegate, aborted: bool, fetched: FetchResult,
                       prevented: bool, succeeded: bool, throws: set<Callback>): Outcome
  {
    var sent := SendSpec(d, delegate, aborted, fetched, prevented, succeeded, throws);
    Outcome(AskHeaders(delegate) + sent.effects, sent.result)
  }

  // ---------------------------------------------------------------------
  // What the delegate sees
  // ---------------------------------------------------------------------

  lemma NotificationsPair(a: Effect, b: Effect)
    ensures Notifications([a, b])
            == (if a.Notified? then [a.notification] else []) + (if b.Notified? then [b.notification] else [])
  {
    assert [a, b][1..] == [b];
    assert [b][1..] == [];
    assert Notifications([b]) == if b.Notified? then [b.notification] else [];
  }

  lemma ReceiveNotifications(raw: RawResponse, prevented: bool, succeeded: bool, throws: set<Callback>)
    ensures Notifications(ReceiveSpec(raw, prevented, succeeded, throws).effects)
            == [Verdict(FetchResponse(raw), prevented, succeeded)]
  {
    var effects := ReceiveSpec(raw, prevented, succeeded, throws).effects;
    NotificationsPair(effects[0], effects[1]);
  }

  lemma TryNotifications(url: string, options: FetchOptions, aborted: bool, fetched: FetchResult,
                         prevented: bool, succeeded: bool, throws: set<Callback>)
    ensures Notifications(TrySpec(url, options, aborted, fetched, prevented, succeeded, throws).effects)
            == if RequestStarted in throws || FetchOutcome(aborted, fetched).Rejected? then [Started]
               else [Started, Verdict(FetchResponse(FetchOutcome(aborted, fetched).response), prevented, succeeded)]
  {
    var sent := [Notified(Started), Fetched(url, options)];
    NotificationsPair(sent[0], sent[1]);
    if RequestStarted !in throws && FetchOutcome(aborted, fetched).Responded? {
      var raw := FetchOutcome(aborted, fetched).response;
      NotificationsAppend(sent, ReceiveSpec(raw, prevented, succeeded, throws).effects);
      ReceiveNotifications(raw, prevented, succeeded, throws);
    }
  }

  lemma SettleNotifications(o: Outcome, throws: set<Callback>)
    ensures Notifications(FinallySpec(CatchSpec(o, throws), throws).effects)
            == Notifications(o.effects)
               + (if o.result.Err? then [Errored(o.result.error)] else [])
               + [Finished]
  {
    var caught := CatchSpec(o, throws);
    NotificationsAppend(caught.effects, [Notified(Finished)]);
    if o.result.Err? {
      NotificationsAppend(o.effects, [Notified(Errored(o.result.error))]);
    }
  }

  /** The delegate calls `perform` makes, in order: `requestStarted`, then
      the verdict when a response arrives, then `requestErrored` for the
      error in flight if there is one, then `requestFinished`; none at all
      when reading the headers throws before the `try`. */
  lemma {:induction false} PerformNotifications(d: Descriptor, delegate: Delegate, aborted: bool, fetched: FetchResult,
                                                prevented: bool, succeeded: bool, throws: set<Callback>)
    ensures var o := PerformSpec(d, delegate, aborted, fetched, prevented, succeeded, throws);
            var tried := TrySpec(Url(d), FetchOptionsOf(d, delegate.additionalHeadersForRequest),
                                 aborted, fetched, prevented, succeeded, throws);
            Notifications(o.effects)
            == if HeadersThrow(delegate, throws) then []
               else Notifications(tried.effects)
                    + (if tried.result.Err? then [Errored(tried.result.error)] else [])
                    + [Finished]
  {
    var asked := AskHeaders(delegate);
    var sent := SendSpec(d, delegate, aborted, fetched, prevented, succeeded, throws);
    assert Notifications(asked) == [] by {
      if asked != [] {
        assert asked[1..] == [];
      }
    }
    NotificationsAppend(asked, sent.effects);
    if !HeadersThrow(delegate, throws) {
      var options := FetchOptionsOf(d, delegate.additionalHeadersForRequest);
      var tried := TrySpec(Url(d), options, aborted, fetched, prevented, succeeded, throws);
      var settled := SettleSpec(Url(d), options, aborted, fetched, prevented, succeeded, throws);
      NotificationsAppend([Dispatched(BeforeFetchRequest(options))], settled.effects);
      SettleNotifications(tried, throws);
    }
  }

  /** What `perform` raises or returns, in terms of its `try` block. */
  lemma PerformResult(d: Descriptor, delegate: Delegate, aborted: bool, fetched: FetchResult,
                      prevented: bool, succeeded: bool, throws: set<Callback>)
    ensures var tried := TrySpec(Url(d), FetchOptionsOf(d, delegate.additionalHeadersForRequest),
                                 aborted, fetched, prevented, succeeded, throws);
            PerformSpec(d, delegate, aborted, fetched, prevented, succeeded, throws).result
            == if HeadersThrow(delegate, throws) then Err(DelegateError(AdditionalHeadersForRequest))
               else FinallySpec(CatchSpec(tried, throws), throws).result
  {
  }

  /** On every path that enters the `try`, the notifications begin with the
      only `requestStarted` and end with the only `requestFinished`; at most
      one verdict and at most one `requestErrored` lie between, the error
      after the verdict. */
  lemma Bracketed(d: Descriptor, delegate: Delegate, aborted: bool, fetched: FetchResult,
                  prevented: bool, succeeded: bool, throws: set<Callback>)
    requires !HeadersThrow(delegate, throws)
    ensures var ns := Notifications(PerformSpec(d, delegate, aborted, fetched, prevented, succeeded, throws).effects);
            && 3 <= |ns| <= 4
            && ns[0] == Started && ns[|ns| - 1] == Finished
            && (forall i :: 0 < i < |ns| - 1 ==> ns[i] != Started && ns[i] != Finished)
            && (forall i, j :: 0 <= i < j < |ns| && IsVerdict(ns[i]) ==> !IsVerdict(ns[j]))
            && (|ns| == 4 ==> IsVerdict(ns[1]) && ns[2] == Errored(DelegateError(CallbackOf(ns[1]))))
            && (|ns| == 3 ==> IsVerdict(ns[1]) || ns[1].Errored?)
  {
    var options := FetchOptionsOf(d, delegate.additionalHeadersForRequest);
    PerformNotifications(d, delegate, aborted, fetched, prevented, succeeded, throws);
    TryNotifications(Url(d), options, aborted, fetched, prevented, succeeded, throws);
  }

  /** Reading the headers throws before the `try`: the only effect is the
      call that threw; nothing is dispatched, nobody is notified, and the
      exception propagates. */
  lemma HeadersThrowBeforeStart(d: Descriptor, delegate: Delegate, aborted: bool, fetched: FetchResult,
                                prevented: bool, succeeded: bool, throws: set<Callback>)
    requires HeadersThrow(delegate, throws)
    ensures var o := PerformSpec(d, delegate, aborted, fetched, prevented, succeeded, throws);
            o.effects == [AskedHeaders] && o.result == Err(DelegateError(AdditionalHeadersForRequest))
  {
  }

  /** With no callback throwing, a fetch error gives exactly
      started, errored, finished, and the same error is raised. */
  lemma FetchErrorIsReported(d: Descriptor, delegate: Delegate, aborted: bool, fetched: FetchResult,
                             prevented: bool, succeeded: bool, throws: set<Callback>, e: Error)
    requires throws == {}
    requires FetchOutcome(aborted, fetched) == Rejected(e)
    ensures var o := PerformSpec(d, delegate, aborted, fetched, prevented, succeeded, throws);
            Notifications(o.effects) == [Started, Errored(e), Finished] && o.result == Err(e)
  {
    PerformResult(d, delegate, aborted, fetched, prevented, succeeded, throws);
    PerformNotifications(d, delegate, aborted, fetched, prevented, succeeded, throws);
    TryNotifications(Url(d), FetchOptionsOf(d, delegate.additionalHeadersForRequest),
                     aborted, fetched, prevented, succeeded, throws);
  }

  /** With no callback throwing, a response gives exactly started, one
      verdict, finished, and the wrapped response is returned; prevention
      wins over `succeeded`. */
  lemma ResponseIsReported(d: Descriptor, delegate: Delegate, aborted: bool, fetched: FetchResult,
                           prevented: bool, succeeded: bool, throws: set<Callback>, raw: RawResponse)
    requires throws == {}
    requires FetchOutcome(aborted, fetched) == Responded(raw)
    ensures var o := PerformSpec(d, delegate, aborted, fetched, prevented, succeeded, throws);
            var r := FetchResponse(raw);
            && o.result == Ok(r)
            && (prevented ==> Notifications(o.effects) == [Started, PreventedHandlingResponse(r), Finished])
            && (!prevented && succeeded ==> Notifications(o.effects) == [Started, SucceededWithResponse(r), Finished])
            && (!prevented && !succeeded ==> Notifications(o.effects) == [Started, FailedWithResponse(r), Finished])
  {
    PerformResult(d, delegate, aborted, fetched, prevented, succeeded, throws);
    PerformNotifications(d, delegate, aborted, fetched, prevented, succeeded, throws);
    TryNotifications(Url(d), FetchOptionsOf(d, delegate.additionalHeadersForRequest),
                     aborted, fetched, prevented, succeeded, throws);
  }

  /** A verdict callback that throws is caught by `perform` like a fetch
      error: `requestErrored` follows the verdict and the exception is raised. */
  lemma ThrowingVerdictIsReported(d: Descriptor, delegate: Delegate, aborted: bool, fetched: FetchResult,
                                  prevented: bool, succeeded: bool, throws: set<Callback>, raw: RawResponse)
    requires !HeadersThrow(delegate, throws) && RequestStarted !in throws
    requires RequestErrored !in throws && RequestFinished !in throws
    requires FetchOutcome(aborted, fetched) == Responded(raw)
    requires CallbackOf(Verdict(FetchResponse(raw), prevented, succeeded)) in throws
    ensures var o := PerformSpec(d, delegate, aborted, fetched, prevented, succeeded, throws);
            var v := Verdict(FetchResponse(raw), prevented, succeeded);
            && Notifications(o.effects) == [Started, v, Errored(DelegateError(CallbackOf(v))), Finished]
            && o.result == Err(DelegateError(CallbackOf(v)))
  {
    PerformResult(d, delegate, aborted, fetched, prevented, succeeded, throws);
    PerformNotifications(d, delegate, aborted, fetched, prevented, succeeded, throws);
    TryNotifications(Url(d), FetchOptionsOf(d, delegate.additionalHeadersForRequest),
                     aborted, fetched, prevented, succeeded, throws);
  }

  /** A request cancelled before `perform` never hands a response to the
      delegate, whatever the network would have answered: it errors with the
      abort and raises. */
  lemma CancelledRequestErrors(d: Descriptor, delegate: Delegate, fetched: FetchResult,
                               prevented: bool, succeeded: bool, throws: set<Callback>)
    ensures var o := PerformSpec(d, delegate, true, fetched, prevented, succeeded, throws);
            var ns := Notifications(o.effects);
            && o.result.Err?
            && (forall i :: 0 <= i < |ns| ==> !IsVerdict(ns[i]))
            && (!HeadersThrow(delegate, throws) && RequestStarted !in throws ==> |ns| >= 2 && ns[1] == Errored(AbortError))
  {
    PerformResult(d, delegate, true, fetched, prevented, succeeded, throws);
    PerformNotifications(d, delegate, true, fetched, prevented, succeeded, throws);
    TryNotifications(Url(d), FetchOptionsOf(d, delegate.additionalHeadersForRequest),
                     true, fetched, prevented, succeeded, throws);
    var ns := Notifications(PerformSpec(d, delegate, true, fetched, prevented, succeeded, throws).effects);
    if HeadersThrow(delegate, throws) {
      assert ns == [];
    } else if RequestStarted in throws {
      assert ns == [Started, Errored(DelegateError(RequestStarted)), Finished];
    } else {
      assert ns == [Started, Errored(AbortError), Finished];
    }
  }

  /** An error is never swallowed: once `requestErrored` fires, `perform`
      raises; and it returns normally only after a verdict. */
  lemma ErrorsAreRaised(d: Descriptor, delegate: Delegate, aborted: bool, fetched: FetchResult,
                        prevented: bool, succeeded: bool, throws: set<Callback>)
    ensures var o := PerformSpec(d, delegate, aborted, fetched, prevented, succeeded, throws);
            var ns := Notifications(o.effects);
            && ((exists i :: 0 <= i < |ns| && ns[i].Errored?) ==> o.result.Err?)
            && (o.result.Ok? ==> exists i :: 0 <= i < |ns| && IsVerdict(ns[i]) && ns[i].response == o.result.value)
  {
    PerformResult(d, delegate, aborted, fetched, prevented, succeeded, throws);
    PerformNotifications(d, delegate, aborted, fetched, prevented, succeeded, throws);
    TryNotifications(Url(d), FetchOptionsOf(d, delegate.additionalHeadersForRequest),
                     aborted, fetched, prevented, succeeded, throws);
    var o := PerformSpec(d, delegate, aborted, fetched, prevented, succeeded, throws);
    var ns := Notifications(o.effects);
    if o.result.Ok? {
      assert IsVerdict(ns[1]) && ns[1].response == o.result.value;
    }
  }

  /** Once the headers are read, `perform` dispatches `before-fetch-request`,
      notifies `requestStarted` and fetches, and never asks for headers again. */
  lemma SendSendsRequest(d: Descriptor, delegate: Delegate, aborted: bool, fetched: FetchResult,
                         prevented: bool, succeeded: bool, throws: set<Callback>)
    requires !HeadersThrow(delegate, throws) && RequestStarted !in throws
    ensures var effects := SendSpec(d, delegate, aborted, fetched, prevented, succeeded, throws).effects;
            var options := FetchOptionsOf(d, delegate.additionalHeadersForRequest);
            && effects[..3] == [Dispatched(BeforeFetchRequest(options)), Notified(Started), Fetched(Url(d), options)]
            && AskedHeaders !in effects
  {
    var options := FetchOptionsOf(d, delegate.additionalHeadersForRequest);
    var tried := TrySpec(Url(d), options, aborted, fetched, prevented, succeeded, throws);
    var settled := SettleSpec(Url(d), options, aborted, fetched, prevented, succeeded, throws);
    assert tried.effects[..2] == [Notified(Started), Fetched(Url(d), options)];
    assert settled.effects[..2] == tried.effects[..2];
    SettleNeverAsks(Url(d), options, aborted, fetched, prevented, succeeded, throws);
  }

  /** The request first asks the delegate for its additional headers when
      the delegate has that callback, then dispatches `before-fetch-request`
      with the options those headers went into, then notifies
      `requestStarted`, then fetches the request's URL with the same
      options, the body travelling only when the method is not GET. */
  lemma PerformSendsRequest(d: Descriptor, delegate: Delegate, aborted: bool, fetched: FetchResult,
                            prevented: bool, succeeded: bool, throws: set<Callback>)
    requires !HeadersThrow(delegate, throws) && RequestStarted !in throws
    ensures var o := PerformSpec(d, delegate, aborted, fetched, prevented, succeeded, throws);
            var options := FetchOptionsOf(d, delegate.additionalHeadersForRequest);
            var k := if delegate.additionalHeadersForRequest.Some? then 1 else 0;
            && |o.effects| >= k + 3
            && (k == 1 ==> o.effects[0] == AskedHeaders)
            && AskedHeaders !in o.effects[k..]
            && o.effects[k] == Dispatched(BeforeFetchRequest(options))
            && o.effects[k + 1] == Notified(Started)
            && o.effects[k + 2] == Fetched(Url(d), options)
            && options.body == BodyContent(d)
            && options.headers == RequestHeaders(d.encodingType, delegate.additionalHeadersForRequest)
  {
    var asked := AskHeaders(delegate);
    var rest := SendSpec(d, delegate, aborted, fetched, prevented, succeeded, throws).effects;
    SendSendsRequest(d, delegate, aborted, fetched, prevented, succeeded, throws);
    var o := PerformSpec(d, delegate, aborted, fetched, prevented, succeeded, throws);
    assert o.effects[|asked|..] == rest;
    assert rest[0] == rest[..3][0] && rest[1] == rest[..3][1] && rest[2] == rest[..3][2];
  }

  // ---------------------------------------------------------------------
  // The request object
  // ---------------------------------------------------------------------

  /** An `AbortController`; aborting an aborted controller changes nothing. */
  class AbortController {
    var aborted: bool

    constructor ()
      ensures !aborted
    {
      aborted := false;
    }

    /** `abort()`: the signal is aborted afterwards, whatever it was before. */
    method Abort()
      modifies this
      ensures aborted
    {
      if !aborted {
        aborted := true;
      }
    }
  }

  class FetchRequest {
    const delegate: Delegate
    const descriptor: Descriptor
    const abortController: AbortController
    /** Every delegate call, event dispatched and fetch made, in order. */
    var log: seq<Effect>

    /** The encoding defaults as `encodingType || multipart_form_data` does. */
    constructor (delegate: Delegate, fetchMethod: FetchMethod, absoluteUrl: string,
                 encodingType: Option<EncodingType>, body: Option<seq<Entry>>)
      ensures this.delegate == delegate
      ensures descriptor == Descriptor(fetchMethod, DefaultEncoding(encodingType), absoluteUrl, body)
      ensures fresh(abortController) && !abortController.aborted
      ensures log == []
    {
      this.delegate := delegate;
      this.descriptor := Descriptor(fetchMethod, DefaultEncoding(encodingType), absoluteUrl, body);
      this.abortController := new AbortController();
      this.log := [];
    }

    /** `cancel`: aborts the signal and notifies nobody; a second cancel
        leaves the request as the first one did. */
    method Cancel()
      modifies abortController
      ensures abortController.aborted
      ensures unchanged(this)
    {
      abortController.Abort();
    }

    /** `receive`. */
    method Receive(raw: RawResponse, prevented: bool, succeeded: bool, throws: set<Callback>)
      returns (result: Result<FetchResponse, Error>)
      modifies this
      ensures log == old(log) + ReceiveSpec(raw, prevented, succeeded, throws).effects
      ensures result == ReceiveSpec(raw, prevented, succeeded, throws).result
    {
      var fetchResponse := FetchResponse(raw);
      log := log + [Dispatched(BeforeFetchResponse(fetchResponse))];
      var verdict: Notification;
      if prevented {
        verdict := PreventedHandlingResponse(fetchResponse);
      } else if succeeded {
        verdict := SucceededWithResponse(fetchResponse);
      } else {
        verdict := FailedWithResponse(fetchResponse);
      }
      log := log + [Notified(verdict)];
      if CallbackOf(verdict) in throws {
        result := Err(DelegateError(CallbackOf(verdict)));
      } else {
        result := Ok(fetchResponse);
      }
    }

    /** The `try` block of `perform`: `requestStarted`, the fetch, and
        `receive` when a response arrives; the result is the response or
        the error in flight. */
    method Try(url: string, options: FetchOptions, fetched: FetchResult,
               prevented: bool, succeeded: bool, throws: set<Callback>)
      returns (result: Result<FetchResponse, Error>)
      modifies this
      ensures log == old(log) + TrySpec(url, options, abortController.aborted,
                                        fetched, prevented, succeeded, throws).effects
      ensures result == TrySpec(url, options, abortController.aborted,
                                fetched, prevented, succeeded, throws).result
    {
      log := log + [Notified(Started)];
      if RequestStarted in throws {
        return Err(DelegateError(RequestStarted));
      }
      log := log + [Fetched(url, options)];
      var settled := if abortController.aborted then Rejected(AbortError) else fetched;
      match settled {
        case Rejected(e) =>
          result := Err(e);
        case Responded(raw) =>
          result := Receive(raw, prevented, succeeded, throws);
      }
    }

    /** The `try`/`catch`/`finally` statement of `perform`: an error in
        flight is reported by `requestErrored` and raised again, and
        `requestFinished` comes last on every path. */
    method Settle(url: string, options: FetchOptions, fetched: FetchResult,
                  prevented: bool, succeeded: bool, throws: set<Callback>)
      returns (result: Result<FetchResponse, Error>)
      modifies this
      ensures log == old(log) + SettleSpec(url, options, abortController.aborted,
                                           fetched, prevented, succeeded, throws).effects
      ensures result == SettleSpec(url, options, abortController.aborted,
                                   fetched, prevented, succeeded, throws).result
    {
      ghost var tried := TrySpec(url, options, abortController.aborted, fetched, prevented, succeeded, throws);
      ghost var caught := CatchSpec(tried, throws);
      result := Try(url, options, fetched, prevented, succeeded, throws);
      // catch
      if result.Err? {
        log := log + [Notified(Errored(result.error))];
        if RequestErrored in throws {
          result := Err(DelegateError(RequestErrored));
        }
      }
      assert log == old(log) + caught.effects;
      // finally
      log := log + [Notified(Finished)];
      if RequestFinished in throws {
        result := Err(DelegateError(RequestFinished));
      }
    }

    /** `perform` after asking the delegate for its headers. */
    method Send(fetched: FetchResult, prevented: bool, succeeded: bool, throws: set<Callback>)
      returns (result: Result<FetchResponse, Error>)
      modifies this
      ensures log == old(log) + SendSpec(descriptor, delegate, abortController.aborted,
                                         fetched, prevented, succeeded, throws).effects
      ensures result == SendSpec(descriptor, delegate, abortController.aborted,
                                 fetched, prevented, succeeded, throws).result
    {
      if HeadersThrow(delegate, throws) {
        return Err(DelegateError(AdditionalHeadersForRequest));
      }
      var options := FetchOptionsOf(descriptor, delegate.additionalHeadersForRequest);
      log := log + [Dispatched(BeforeFetchRequest(options))];
      result := Settle(Url(descriptor), options, fetched, prevented, succeeded, throws);
    }

    /** `perform`: its effects and its result are those of `PerformSpec`. */
    method Perform(fetched: FetchResult, prevented: bool, succeeded: bool, throws: set<Callback>)
      returns (result: Result<FetchResponse, Error>)
      modifies this
      ensures log == old(log) + PerformSpec(descriptor, delegate, abortController.aborted,
                                            fetched, prevented, succeeded, throws).effects
      ensures result == PerformSpec(descriptor, delegate, abortController.aborted,
                                    fetched, prevented, succeeded, throws).result
    {
      log := log + AskHeaders(delegate);
      result := Send(fetched, prevented, succeeded, throws);
      AppendAssociates(old(log), AskHeaders(delegate),
                       SendSpec(descriptor, delegate, abortController.aborted,
                                fetched, prevented, succeeded, throws).effects);
    }
  }
}
