/** The view model: the UI state slot, the rule that turns what a repository call gave
    back into a terminal state, and the two steps of every intent (set Loading and issue
    the call; later, post the terminal state). There is no single-flight guard: an intent
    always overwrites the state with Loading, whatever it was. */
module ViewModel {
  import opened Optional
  import opened PoseApi
  import opened PoseRepository
  import opened Decimal
  import opened Text

  /** `UiState`: exactly one of six shapes. */
  datatype UiState =
    | Idle
    | Loading
    | SimpleOk(simple: SimpleResponse)
    | FullOk(full: FullResponse)
    | OverlayOk(bytes: Bytes)
    | Error(message: string)
  {
    /** A state a completed request leaves behind. */
    predicate Terminal() {
      !Idle? && !Loading?
    }
  }

  /** What a repository call gave back: a response (success flag, status code, decoded
      body or null, error body text or null) or an exception with its message or null. */
  datatype Outcome<B> =
    | Response(isSuccessful: bool, code: Int32, body: Option<B>, errorBody: Option<string>)
    | Threw(message: Option<string>)
  {
    /** The success branch is taken: successful and with a non-null body. */
    predicate TakesSuccessBranch() {
      Response? && isSuccessful && body.Some?
    }
  }

  /** The outcome of one of the three calls, typed by the call that produced it. */
  datatype Reply =
    | SimpleReply(simple: Outcome<SimpleResponse>)
    | FullReply(full: Outcome<FullResponse>)
    | OverlayReply(overlay: Outcome<Bytes>)
  {
    function Analysis(): Variant {
      match this
      case SimpleReply(_) => SimpleAnalysis
      case FullReply(_) => FullAnalysis
      case OverlayReply(_) => OverlayAnalysis
    }

    /** The branch of the rule the reply takes. */
    function Taken(): Branch {
      match this
      case SimpleReply(o) => BranchOf(o)
      case FullReply(o) => BranchOf(o)
      case OverlayReply(o) => BranchOf(o)
    }
  }

  /** The three branches of the rule: the body is used; the response is rejected
      (unsuccessful, or successful without a body); an exception was thrown. */
  datatype Branch =
    | Delivered
    | Rejected(code: Int32, errorBody: Option<string>)
    | Raised(message: Option<string>)

  function BranchOf<B>(o: Outcome<B>): (st: Branch)
    ensures st.Delivered? <==> o.TakesSuccessBranch()
    ensures o.Response? && !o.TakesSuccessBranch() ==> st == Rejected(o.code, o.errorBody)
    ensures o.Threw? ==> st == Raised(o.message)
  {
    match o
    case Threw(m) => Raised(m)
    case Response(ok, code, body, errorBody) =>
      if ok && body.Some? then Delivered else Rejected(code, errorBody)
  }

  /** "HTTP <code>: <error body, or unknown>". */
  function HttpErrorMessage(code: Int32, errorBody: Option<string>): string {
    "HTTP " + IntToDecimal(code as int) + ": " + errorBody.GetOr("unknown")
  }

  /** The exception's message, or "unknown error" when it has none. */
  function ExceptionMessage(message: Option<string>): string {
    message.GetOr("unknown error")
  }

  /** Reads an "HTTP <code>: <text>" message back into the code and the text. */
  function ParseHttpError(m: string): Option<(int, string)> {
    if |m| >= 5 && m[..5] == "HTTP " then
      match SplitAtFirst(m[5..], ':')
      case Some((numeral, rest)) =>
        if |rest| >= 1 && rest[0] == ' ' then
          match ParseDecimal(numeral)
          case Some(code) => Some((code, rest[1..]))
          case None => None
        else None
      case None => None
    else None
  }

  /** The HTTP error message loses nothing: code and text can be read back from it. */
  lemma HttpErrorMessageRoundTrip(code: Int32, errorBody: Option<string>)
    ensures ParseHttpError(HttpErrorMessage(code, errorBody)) == Some((code as int, errorBody.GetOr("unknown")))
  {
    var numeral := IntToDecimal(code as int);
    var text := errorBody.GetOr("unknown");
    var m := HttpErrorMessage(code, errorBody);
    assert m[..5] == "HTTP ";
    assert m[5..] == numeral + [':'] + (" " + text);
    assert ':' !in numeral by {
      forall k | 0 <= k < |numeral| ensures numeral[k] != ':' { }
    }
    SplitAtFirstJoin(numeral, ':', " " + text);
    IntToDecimalRoundTrip(code as int);
  }

  /** ParseHttpError accepts only messages of exactly the form "HTTP <code>: <text>",
      with the code written as `Int.toString()` writes it. */
  lemma ParseHttpErrorExact(m: string, code: int, text: string)
    requires ParseHttpError(m) == Some((code, text))
    ensures m == "HTTP " + IntToDecimal(code) + ": " + text
  {
    var (numeral, rest) := SplitAtFirst(m[5..], ':').value;
    SplitAtFirstParts(m[5..], ':', numeral, rest);
    ParseDecimalExact(numeral, code);
    assert m == m[..5] + m[5..];
    assert rest == [' '] + text;
  }

  /** The state a completed call posts. */
  function Resolve(reply: Reply): (s: UiState)
    ensures s.Terminal()
    ensures s.Error? <==> !reply.Taken().Delivered?
    ensures s.SimpleOk? ==> reply.SimpleReply? && reply.simple.TakesSuccessBranch() && reply.simple.body == Some(s.simple)
    ensures s.FullOk? ==> reply.FullReply? && reply.full.TakesSuccessBranch() && reply.full.body == Some(s.full)
    ensures s.OverlayOk? ==> reply.OverlayReply? && reply.overlay.TakesSuccessBranch() && reply.overlay.body == Some(s.bytes)
    ensures reply.Taken().Rejected? ==>
      ParseHttpError(s.message) == Some((reply.Taken().code as int, reply.Taken().errorBody.GetOr("unknown")))
    ensures reply.Taken().Raised? ==> s.message == reply.Taken().message.GetOr("unknown error")
  {
    match reply.Taken()
    case Delivered =>
      (match reply
       case SimpleReply(o) => SimpleOk(o.body.value)
       case FullReply(o) => FullOk(o.body.value)
       case OverlayReply(o) => OverlayOk(o.body.value))
    case Rejected(code, errorBody) =>
      HttpErrorMessageRoundTrip(code, errorBody);
      Error(HttpErrorMessage(code, errorBody))
    case Raised(message) =>
      Error(ExceptionMessage(message))
  }

  /** A rejected response's message is exactly "HTTP <code>: <error body or unknown>". */
  lemma ResolveRejectedText(reply: Reply)
    requires reply.Taken().Rejected?
    ensures Resolve(reply).message ==
      "HTTP " + IntToDecimal(reply.Taken().code as int) + ": " + reply.Taken().errorBody.GetOr("unknown")
  {
    ParseHttpErrorExact(Resolve(reply).message, reply.Taken().code as int, reply.Taken().errorBody.GetOr("unknown"));
  }

  /** The variant whose success case a state is, if any. */
  function SucceededAs(s: UiState): Option<Variant> {
    match s
    case SimpleOk(_) => Some(SimpleAnalysis)
    case FullOk(_) => Some(FullAnalysis)
    case OverlayOk(_) => Some(OverlayAnalysis)
    case _ => None
  }

  /** A call never produces another call's success case: it is its own Ok or an Error. */
  lemma ResolveStaysInItsVariant(reply: Reply)
    ensures Resolve(reply).Error? || SucceededAs(Resolve(reply)) == Some(reply.Analysis())
  {
  }

  /** A full analysis answered with status 500 and body "server error". */
  lemma ServerErrorExample()
    ensures Resolve(FullReply(Response(false, 500, None, Some("server error")))) == Error("HTTP 500: server error")
  {
    assert NatToDecimal(5) == "5";
    assert NatToDecimal(50) == "50";
    assert NatToDecimal(500) == "500";
    assert HttpErrorMessage(500, Some("server error")) == "HTTP 500: server error";
  }

  /** Number of Loading values in a sequence of states. */
  ghost function Loadings(h: seq<UiState>): nat {
    if h == [] then 0 else Loadings(h[..|h| - 1]) + (if h[|h| - 1].Loading? then 1 else 0)
  }

  /** Number of terminal values in a sequence of states. */
  ghost function Settlements(h: seq<UiState>): nat {
    if h == [] then 0 else Settlements(h[..|h| - 1]) + (if h[|h| - 1].Terminal() then 1 else 0)
  }

  class PoseViewModel {
    /** `_state`: the value the observable slot currently holds on the main thread. */
    var state: UiState
    /** Every value the slot has held, in the order the main thread gave it to the slot,
        the initial Idle first. A posted value that a later post overwrote before the
        main thread applied it never reaches the slot and is not recorded. */
    ghost var history: seq<UiState>
    /** Every repository call issued, in order. */
    ghost var calls: seq<Call>
    /** Variants of the calls whose result the main thread has not applied: still
        running, posted but not yet applied, or overwritten by a later post. */
    ghost var pending: multiset<Variant>

    ghost predicate Valid()
      reads this
    {
      && |history| >= 1 && history[0] == Idle && history[|history| - 1] == state
      && (forall i :: 1 <= i < |history| ==> history[i] != Idle)
      && Loadings(history) == |calls|
      && Settlements(history) + |pending| == |calls|
      && (forall k :: 0 <= k <= |history| ==> Settlements(history[..k]) <= Loadings(history[..k]))
    }

    constructor ()
      ensures Valid()
      ensures state == Idle && history == [Idle] && calls == [] && pending == multiset{}
    {
      state := Idle;
      history := [Idle];
      calls := [];
      pending := multiset{};
      new;
      assert history[..0] == [] && history[..1][..0] == [];
    }

    /** `analyzeSimple`, `analyzeFull`, `overlay` up to the launch: the state becomes
        Loading at once, whatever it was, and exactly one repository call goes out. */
    method Start(v: Variant, image: ImageFile, mode: Option<string>)
      requires Valid()
      modifies this
      ensures Valid()
      ensures state == Loading
      ensures history == old(history) + [Loading]
      ensures calls == old(calls) + [Request(v, image, mode)]
      ensures pending == old(pending) + multiset{v}
    {
      Record(Loading);
      state := Loading;
      calls := calls + [Request(v, image, mode)];
      pending := pending + multiset{v};
    }

    /** The main thread applying the value a call's coroutine posted: the state its reply
        resolves to. This may come after a later intent's Loading, so the slot can end
        on a result while another call is still pending. */
    method Complete(reply: Reply)
      requires Valid()
      requires reply.Analysis() in pending
      modifies this
      ensures Valid()
      ensures state == Resolve(reply)
      ensures history == old(history) + [state]
      ensures calls == old(calls)
      ensures pending == old(pending) - multiset{reply.Analysis()}
    {
      var s := Resolve(reply);
      Record(s);
      state := s;
      pending := pending - multiset{reply.Analysis()};
    }

    /** Appends a value to the history, keeping the per-prefix counts in step. */
    ghost method Record(s: UiState)
      requires |history| >= 1
      requires s.Terminal() ==> Settlements(history) < Loadings(history)
      requires forall k :: 0 <= k <= |history| ==> Settlements(history[..k]) <= Loadings(history[..k])
      modifies this`history
      ensures history == old(history) + [s]
      ensures Loadings(history) == Loadings(old(history)) + (if s.Loading? then 1 else 0)
      ensures Settlements(history) == Settlements(old(history)) + (if s.Terminal() then 1 else 0)
      ensures forall k :: 0 <= k <= |history| ==> Settlements(history[..k]) <= Loadings(history[..k])
    {
      var h := history;
      history := h + [s];
      assert history[..|history| - 1] == h;
      forall k | 0 <= k <= |history|
        ensures Settlements(history[..k]) <= Loadings(history[..k])
      {
        if k <= |h| {
          assert history[..k] == h[..k];
        } else {
          assert history[..k] == history;
          assert h[..|h|] == h;
        }
      }
    }
  }

  /** Two intents in a row leave two Loading values and two calls: nothing rejects the
      second one. A reply to each then settles the state. */
  method NoSingleFlight(image: ImageFile, body: SimpleResponse)
  {
    var vm := new PoseViewModel();
    vm.Start(SimpleAnalysis, image, None);
    vm.Start(SimpleAnalysis, image, Some("squat"));
    assert vm.history == [Idle, Loading, Loading];
    assert |vm.calls| == 2;
    vm.Complete(SimpleReply(Response(true, 200, Some(body), None)));
    assert vm.state == SimpleOk(body);
    vm.Complete(SimpleReply(Threw(None)));
    assert vm.state == Error("unknown error");
    assert vm.history == [Idle, Loading, Loading, SimpleOk(body), Error("unknown error")];
  }

  /** A simple analysis posts its result; a full-analysis click sets Loading before the
      main thread applies that post. The slot ends on the simple result while the full
      analysis is still in flight. */
  method LateResultAfterLaterClick(image: ImageFile, body: SimpleResponse)
  {
    var vm := new PoseViewModel();
    vm.Start(SimpleAnalysis, image, None);
    vm.Start(FullAnalysis, image, None);
    vm.Complete(SimpleReply(Response(true, 200, Some(body), None)));
    assert vm.state == SimpleOk(body);
    assert vm.pending == multiset{FullAnalysis};
  }
}
