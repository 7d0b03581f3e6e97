/**
 * The part of an Express application that getApp relies on: an app
 * holds an ordered stack of middleware, `app.use` appends to it, and a
 * request is passed down the stack until some middleware answers it.
 * What each middleware does inside is not modelled: its behaviour is a
 * function supplied from outside (`Behaviour`).
 */
module Express {
  import opened Wrappers
  import opened Options

  /** An incoming request; `locals` holds what middleware attach to it (such as a decoded token). */
  datatype Request = Request(
    verb: string,
    path: string,
    headers: map<string, string>,
    body: seq<bv8>,
    locals: map<string, string>)

  datatype Response = Response(status: nat, headers: map<string, string>, body: seq<bv8>)

  /** What one middleware does with a request: answer it, or call `next` with a (possibly annotated) request. */
  datatype Step = Halt(response: Response) | Continue(request: Request)

  /** How the token verifier of limes is configured. */
  datatype TokenConfig = TokenConfig(identityProviderName: JsValue, certificate: JsValue)

  /** How the datendepot blob storage middleware is configured. */
  datatype StorageConfig = StorageConfig(storage: string, directory: JsValue)

  /** The middleware getApp installs, each with the configuration it was built from. */
  datatype Middleware =
    | Cors
    | VerifyToken(token: TokenConfig)
    | BlobStorage(store: StorageConfig)

  /** The behaviour of each kind of middleware, left uninterpreted. */
  datatype Behaviour = Behaviour(
    cors: Request -> Step,
    verifyToken: (TokenConfig, Request) -> Step,
    storage: (StorageConfig, Request) -> Step)

  function Apply(m: Middleware, b: Behaviour, req: Request): Step {
    match m
    case Cors => b.cors(req)
    case VerifyToken(t) => b.verifyToken(t, req)
    case BlobStorage(s) => b.storage(s, req)
  }

  /** How a request leaves the stack: answered by the middleware at index `stage`, or by none of them. */
  datatype Outcome = Responded(response: Response, stage: nat) | Unhandled(request: Request)

  /**
   * Dispatch from index `i` on: run the middleware at `i`; if it calls
   * `next`, go on with the next one and the request it passed along.
   */
  function RunFrom(stack: seq<Middleware>, i: nat, b: Behaviour, req: Request): (out: Outcome)
    requires i <= |stack|
    ensures out.Responded? ==> i <= out.stage < |stack|
    decreases |stack| - i
  {
    if i == |stack| then
      Unhandled(req)
    else
      match Apply(stack[i], b, req)
      case Halt(resp) => Responded(resp, i)
      case Continue(next) => RunFrom(stack, i + 1, b, next)
  }

  /** Dispatch of a request through a whole stack. */
  function Run(stack: seq<Middleware>, b: Behaviour, req: Request): Outcome {
    RunFrom(stack, 0, b, req)
  }

  /**
   * The request the middleware at index `k` is called with, if it is
   * called at all: the first one sees the request as it arrived, and
   * each later one is called exactly when the one before it called
   * `next`, with the request it passed along.
   */
  function Reaches(stack: seq<Middleware>, b: Behaviour, req: Request, k: nat): (r: Option<Request>)
    ensures r.Some? ==> k < |stack|
  {
    if k >= |stack| then None
    else if k == 0 then Some(req)
    else
      match Reaches(stack, b, req, k - 1)
      case None => None
      case Some(prev) =>
        match Apply(stack[k - 1], b, prev)
        case Halt(_) => None
        case Continue(next) => Some(next)
  }

  /** A middleware that is called was preceded by calls to every earlier one, each of which called `next`. */
  lemma {:induction false} EarlierStagesPassed(stack: seq<Middleware>, b: Behaviour, req: Request, k: nat, j: nat)
    requires Reaches(stack, b, req, k).Some?
    requires j < k
    ensures Reaches(stack, b, req, j).Some?
    ensures Apply(stack[j], b, Reaches(stack, b, req, j).value).Continue?
  {
    if j < k - 1 {
      EarlierStagesPassed(stack, b, req, k - 1, j);
    }
  }

  /** Dispatch from a middleware that is called gives the same outcome as dispatch of the whole stack. */
  lemma {:induction false} RunFromReached(stack: seq<Middleware>, b: Behaviour, req: Request, i: nat)
    requires Reaches(stack, b, req, i).Some?
    ensures Run(stack, b, req) == RunFrom(stack, i, b, Reaches(stack, b, req, i).value)
  {
    if i > 0 {
      RunFromReached(stack, b, req, i - 1);
    }
  }

  /** The first called middleware that answers is the one whose answer is sent. */
  lemma HaltingStageAnswers(stack: seq<Middleware>, b: Behaviour, req: Request, k: nat)
    requires Reaches(stack, b, req, k).Some?
    requires Apply(stack[k], b, Reaches(stack, b, req, k).value).Halt?
    ensures Run(stack, b, req) == Responded(Apply(stack[k], b, Reaches(stack, b, req, k).value).response, k)
    ensures forall j: nat :: k < j ==> Reaches(stack, b, req, j).None?
  {
    RunFromReached(stack, b, req, k);
    forall j: nat | k < j
      ensures Reaches(stack, b, req, j).None?
    {
      if Reaches(stack, b, req, j).Some? {
        EarlierStagesPassed(stack, b, req, j, k);
      }
    }
  }

  /**
   * `ResponseFromReachedStage` for dispatch resumed at a called
   * middleware `i`: the answer comes from a called middleware at or
   * after `i` that chose to answer.
   */
  lemma {:induction false} RespondedFrom(stack: seq<Middleware>, b: Behaviour, req: Request, i: nat)
    requires Reaches(stack, b, req, i).Some?
    requires RunFrom(stack, i, b, Reaches(stack, b, req, i).value).Responded?
    ensures var out := RunFrom(stack, i, b, Reaches(stack, b, req, i).value);
      && Reaches(stack, b, req, out.stage).Some?
      && Apply(stack[out.stage], b, Reaches(stack, b, req, out.stage).value) == Halt(out.response)
    decreases |stack| - i
  {
    var r := Reaches(stack, b, req, i).value;
    if Apply(stack[i], b, r).Continue? {
      assert Reaches(stack, b, req, i + 1) == Some(Apply(stack[i], b, r).request);
      RespondedFrom(stack, b, req, i + 1);
    }
  }

  /** An answer always comes from a middleware that was called and chose to answer. */
  lemma ResponseFromReachedStage(stack: seq<Middleware>, b: Behaviour, req: Request)
    requires Run(stack, b, req).Responded?
    ensures var out := Run(stack, b, req);
      && Reaches(stack, b, req, out.stage).Some?
      && Apply(stack[out.stage], b, Reaches(stack, b, req, out.stage).value) == Halt(out.response)
  {
    RespondedFrom(stack, b, req, 0);
  }

  /** The mutable part of an Express application: its middleware stack. */
  class App {
    var stack: seq<Middleware>

    /** `express()`: an application with no middleware yet. */
    constructor ()
      ensures stack == []
    {
      stack := [];
    }

    /** `app.use(m)`: install `m` after everything installed so far. */
    method Use(m: Middleware)
      modifies this
      ensures stack == old(stack) + [m]
    {
      stack := stack + [m];
    }

    /** Handle one request by walking the stack in order until a middleware answers. */
    method Handle(b: Behaviour, req: Request) returns (out: Outcome)
      ensures out == Run(stack, b, req)
    {
      var i := 0;
      var current := req;
      while i < |stack|
        invariant i <= |stack|
        invariant RunFrom(stack, i, b, current) == Run(stack, b, req)
      {
        match Apply(stack[i], b, current)
        case Halt(resp) =>
          return Responded(resp, i);
        case Continue(next) =>
          current := next;
          i := i + 1;
      }
      out := Unhandled(current);
    }
  }
}
