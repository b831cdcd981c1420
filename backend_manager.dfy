/** The smart backend manager: an object that knows which backends are
    available and three ways of writing the flags from that knowledge, plus
    the command-line strategy dispatch (smart_backend_manager.py). */
module SmartBackendManager {
  import opened Environment
  import TextCase

  /** The two `RuntimeError`s the manager raises. */
  datatype BackendError = TensorflowUnavailable | NoBackendAvailable

  /** How a `use_*` call ends: normally, or by raising. */
  datatype Status = Done | Raised(error: BackendError)

  /** The three selection strategies. */
  datatype Strategy = PytorchOnly | TensorflowOnly | Auto

  /** A strategy's verdict: write the flags for a backend, or raise. */
  datatype Decision = Use(backend: Backend) | Fail(error: BackendError)

  /** Automatic selection: PyTorch when it is available (preferred when both
      are), TensorFlow when it is the only one, nothing when neither is. */
  function AutoChoice(torchAvailable: bool, tensorflowAvailable: bool): (r: Option<Backend>)
    ensures torchAvailable ==> r == Some(Torch)
    ensures r == Some(Tensorflow) <==> !torchAvailable && tensorflowAvailable
    ensures r == None <==> !torchAvailable && !tensorflowAvailable
  {
    if torchAvailable && tensorflowAvailable then Some(Torch)
    else if torchAvailable then Some(Torch)
    else if tensorflowAvailable then Some(Tensorflow)
    else None
  }

  /** What each strategy decides from the availability fields. Forcing
      PyTorch does not look at its availability; forcing TensorFlow does. */
  function Decide(s: Strategy, torchAvailable: bool, tensorflowAvailable: bool): (r: Decision)
    ensures s == PytorchOnly ==> r == Use(Torch)
    ensures r == Use(Tensorflow) ==> tensorflowAvailable
    ensures s != PytorchOnly && r == Use(Torch) ==> torchAvailable
    ensures r.Fail? <==> (s == TensorflowOnly && !tensorflowAvailable) || (s == Auto && !torchAvailable && !tensorflowAvailable)
    ensures r.Fail? ==> r.error == (if s == TensorflowOnly then TensorflowUnavailable else NoBackendAvailable)
    ensures s == TensorflowOnly && tensorflowAvailable ==> r == Use(Tensorflow)
    ensures s == Auto && torchAvailable ==> r == Use(Torch)
  {
    match s
    case PytorchOnly => Use(Torch)
    case TensorflowOnly => if tensorflowAvailable then Use(Tensorflow) else Fail(TensorflowUnavailable)
    case Auto =>
      match AutoChoice(torchAvailable, tensorflowAvailable)
      case Some(b) => Use(b)
      case None => Fail(NoBackendAvailable)
  }

  /** How a call that follows decision `d` ends. */
  function StatusOf(d: Decision): Status {
    match d
    case Use(_) => Done
    case Fail(e) => Raised(e)
  }

  /** The environment after strategy `s`: the chosen backend's flags, or
      the untouched environment when the strategy raises. */
  function StrategyEnv(env: Env, s: Strategy, torchAvailable: bool, tensorflowAvailable: bool): (r: Env)
    ensures Decide(s, torchAvailable, tensorflowAvailable).Use? ==>
      ExactlyOneOn(r) && Selects(r, Decide(s, torchAvailable, tensorflowAvailable).backend)
    ensures Decide(s, torchAvailable, tensorflowAvailable).Fail? ==> r == env
    ensures SameOutsideFlags(env, r)
  {
    match Decide(s, torchAvailable, tensorflowAvailable)
    case Use(b) => Assign(env, b)
    case Fail(_) => env
  }

  /** Applying a strategy a second time changes nothing. */
  lemma StrategyEnvIdempotent(env: Env, s: Strategy, torchAvailable: bool, tensorflowAvailable: bool)
    ensures StrategyEnv(StrategyEnv(env, s, torchAvailable, tensorflowAvailable), s, torchAvailable, tensorflowAvailable)
         == StrategyEnv(env, s, torchAvailable, tensorflowAvailable)
  {
    match Decide(s, torchAvailable, tensorflowAvailable)
    case Use(b) => AssignLastWriteWins(env, b, b);
    case Fail(_) =>
  }

  /** `BackendManager`: the availability of each backend, fixed when the
      object is built (the import probes become constructor arguments). */
  class BackendManager {
    var tensorflowAvailable: bool
    var torchAvailable: bool

    constructor (torchAvailable: bool, tensorflowAvailable: bool)
      ensures this.torchAvailable == torchAvailable
      ensures this.tensorflowAvailable == tensorflowAvailable
    {
      this.torchAvailable := torchAvailable;
      this.tensorflowAvailable := tensorflowAvailable;
    }

    /** `use_pytorch_only`: always selects PyTorch. The second ensures is the
        first restated through `StrategyEnv`, for `RunStrategy`. */
    method UsePytorchOnly(env: Environ)
      modifies env
      ensures unchanged(this)
      ensures env.vars == Assign(old(env.vars), Torch)
      ensures env.vars == StrategyEnv(old(env.vars), PytorchOnly, torchAvailable, tensorflowAvailable)
    {
      env.Set(UseTf, Off);
      env.Set(UseTorch, On);
    }

    /** `use_tensorflow_only`: raises, before writing anything, when
        TensorFlow is unavailable; otherwise selects TensorFlow. The first
        two ensures state this directly; the last two state the same through
        `Decide` and `StrategyEnv`, the form `RunStrategy` relies on. */
    method UseTensorflowOnly(env: Environ) returns (status: Status)
      modifies env
      ensures unchanged(this)
      ensures status == (if tensorflowAvailable then Done else Raised(TensorflowUnavailable))
      ensures env.vars == (if tensorflowAvailable then Assign(old(env.vars), Tensorflow) else old(env.vars))
      ensures status == StatusOf(Decide(TensorflowOnly, torchAvailable, tensorflowAvailable))
      ensures env.vars == StrategyEnv(old(env.vars), TensorflowOnly, torchAvailable, tensorflowAvailable)
    {
      if !tensorflowAvailable {
        return Raised(TensorflowUnavailable);
      }
      env.Set(UseTf, On);
      env.Set(UseTorch, Off);
      status := Done;
    }

    /** `use_auto_backend`: the automatic priority order, raising before
        any write when neither backend is available. The first ensures gives
        the status directly, the second through `Decide`. */
    method UseAutoBackend(env: Environ) returns (status: Status)
      modifies env
      ensures unchanged(this)
      ensures status == (if torchAvailable || tensorflowAvailable then Done else Raised(NoBackendAvailable))
      ensures status == StatusOf(Decide(Auto, torchAvailable, tensorflowAvailable))
      ensures env.vars == StrategyEnv(old(env.vars), Auto, torchAvailable, tensorflowAvailable)
    {
      if torchAvailable && tensorflowAvailable {
        env.Set(UseTf, Off);
        env.Set(UseTorch, On);
      } else if torchAvailable {
        env.Set(UseTf, Off);
        env.Set(UseTorch, On);
      } else if tensorflowAvailable {
        env.Set(UseTf, On);
        env.Set(UseTorch, Off);
      } else {
        return Raised(NoBackendAvailable);
      }
      status := Done;
    }
  }

  /** The strategy named on the command line (`args` is the argument list
      after the program name): none means automatic selection; otherwise the
      first argument, lower-cased, must be one of the three names. */
  function ParseStrategy(args: seq<string>): (r: Option<Strategy>)
    ensures |args| == 0 ==> r == Some(Auto)
    ensures r == None ==> |args| > 0 && TextCase.Lower(args[0]) !in {"pytorch", "tensorflow", "auto"}
  {
    if |args| == 0 then Some(Auto)
    else
      var strategy := TextCase.Lower(args[0]);
      if strategy == "pytorch" then Some(PytorchOnly)
      else if strategy == "tensorflow" then Some(TensorflowOnly)
      else if strategy == "auto" then Some(Auto)
      else None
  }

  /** The strategy names are matched ignoring the case of their letters, and
      nothing else is accepted. */
  lemma ParseStrategyIgnoresCase(s: string, rest: seq<string>)
    ensures ParseStrategy([s] + rest) == Some(PytorchOnly) <==> TextCase.MatchesIgnoringCase(s, "pytorch")
    ensures ParseStrategy([s] + rest) == Some(TensorflowOnly) <==> TextCase.MatchesIgnoringCase(s, "tensorflow")
    ensures ParseStrategy([s] + rest) == Some(Auto) <==> TextCase.MatchesIgnoringCase(s, "auto")
    ensures ParseStrategy([s] + rest) == None <==>
      !TextCase.MatchesIgnoringCase(s, "pytorch") && !TextCase.MatchesIgnoringCase(s, "tensorflow")
      && !TextCase.MatchesIgnoringCase(s, "auto")
  {
    TextCase.LowerEqualsWord(s, "pytorch");
    TextCase.LowerEqualsWord(s, "tensorflow");
    TextCase.LowerEqualsWord(s, "auto");
  }

  /** How the manager's main ends, as far as the backend is concerned. */
  datatype RunOutcome = Configured | UnknownStrategy | Aborted(error: BackendError)

  /** The environment after the manager's main: unchanged for an unknown
      strategy, otherwise that of the parsed strategy. */
  function RunEnv(env: Env, args: seq<string>, torchAvailable: bool, tensorflowAvailable: bool): (r: Env)
    ensures ParseStrategy(args).None? ==> r == env
    ensures |args| == 0 ==> r == StrategyEnv(env, Auto, torchAvailable, tensorflowAvailable)
    ensures ParseStrategy(args).Some? ==> r == StrategyEnv(env, ParseStrategy(args).value, torchAvailable, tensorflowAvailable)
    ensures ParseStrategy(args).Some? && Decide(ParseStrategy(args).value, torchAvailable, tensorflowAvailable).Use? ==>
      ExactlyOneOn(r)
    ensures SameOutsideFlags(env, r)
  {
    match ParseStrategy(args)
    case None => env
    case Some(s) => StrategyEnv(env, s, torchAvailable, tensorflowAvailable)
  }

  /** The strategy dispatch of the manager's main. A raise inside a `use_*`
      call is not caught there, so it ends the run as `Aborted`. */
  method RunStrategy(manager: BackendManager, env: Environ, args: seq<string>) returns (outcome: RunOutcome)
    modifies env
    ensures outcome == match ParseStrategy(args)
      case None => UnknownStrategy
      case Some(s) =>
        match Decide(s, manager.torchAvailable, manager.tensorflowAvailable)
        case Use(_) => Configured
        case Fail(e) => Aborted(e)
    ensures env.vars == RunEnv(old(env.vars), args, manager.torchAvailable, manager.tensorflowAvailable)
    ensures outcome == Configured ==> ExactlyOneOn(env.vars)
    ensures outcome != Configured ==> env.vars == old(env.vars)
  {
    var status: Status;
    if |args| > 0 {
      var strategy := TextCase.Lower(args[0]);
      if strategy == "pytorch" {
        manager.UsePytorchOnly(env);
        status := Done;
      } else if strategy == "tensorflow" {
        status := manager.UseTensorflowOnly(env);
      } else if strategy == "auto" {
        status := manager.UseAutoBackend(env);
      } else {
        return UnknownStrategy;
      }
    } else {
      status := manager.UseAutoBackend(env);
    }
    outcome := if status.Done? then Configured else Aborted(status.error);
  }
}
