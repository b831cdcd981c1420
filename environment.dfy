/** The process environment (Python's `os.environ`) as an in-memory string map,
    and the two flags `USE_TF` / `USE_TORCH` through which a backend is chosen. */
module Environment {

  datatype Option<T> = None | Some(value: T)

  /** The two machine-learning backends the flags choose between. */
  datatype Backend = Torch | Tensorflow

  type Env = map<string, string>

  const UseTf: string := "USE_TF"
  const UseTorch: string := "USE_TORCH"
  const On: string := "1"
  const Off: string := "0"

  /** The value `USE_TF` gets when backend `b` is selected. */
  function TfFlag(b: Backend): string {
    if b == Tensorflow then On else Off
  }

  /** The value `USE_TORCH` gets when backend `b` is selected. */
  function TorchFlag(b: Backend): string {
    if b == Torch then On else Off
  }

  /** `env` selects `b`: both flags are present, `b`'s is "1" and the other's "0". */
  predicate Selects(env: Env, b: Backend) {
    UseTf in env && UseTorch in env && env[UseTf] == TfFlag(b) && env[UseTorch] == TorchFlag(b)
  }

  /** Exactly one of the two flags is "1" and the other is "0". */
  predicate ExactlyOneOn(env: Env) {
    && UseTf in env && UseTorch in env
    && ((env[UseTf] == On && env[UseTorch] == Off) || (env[UseTf] == Off && env[UseTorch] == On))
  }

  /** `env` and `env'` agree on every key other than the two flags. */
  ghost predicate SameOutsideFlags(env: Env, env': Env) {
    forall k :: k != UseTf && k != UseTorch ==>
      (k in env <==> k in env') && (k in env ==> env[k] == env'[k])
  }

  /** The environment after both flags are written for backend `b`. */
  function Assign(env: Env, b: Backend): (r: Env)
    ensures Selects(r, b) && ExactlyOneOn(r)
    ensures r.Keys == env.Keys + {UseTf, UseTorch}
    ensures SameOutsideFlags(env, r)
  {
    env[UseTf := TfFlag(b)][UseTorch := TorchFlag(b)]
  }

  /** A selected environment names exactly one backend. */
  lemma ExactlyOneOnIffSelects(env: Env)
    ensures ExactlyOneOn(env) <==> (exists b :: Selects(env, b))
    ensures forall b1, b2 :: Selects(env, b1) && Selects(env, b2) ==> b1 == b2
  {
    if ExactlyOneOn(env) {
      if env[UseTf] == On {
        assert Selects(env, Tensorflow);
      } else {
        assert Selects(env, Torch);
      }
    }
  }

  /** Writing the flags a second time keeps only the second choice; writing
      the same choice twice is the same as writing it once. */
  lemma AssignLastWriteWins(env: Env, b1: Backend, b2: Backend)
    ensures Assign(Assign(env, b1), b2) == Assign(env, b2)
    ensures Assign(Assign(env, b2), b2) == Assign(env, b2)
  {
  }

  /** The mutable process environment. */
  class Environ {
    var vars: Env

    constructor (initial: Env)
      ensures vars == initial
    {
      vars := initial;
    }

    /** `os.environ[key] = value` */
    method Set(key: string, value: string)
      modifies this
      ensures vars == old(vars)[key := value]
    {
      vars := vars[key := value];
    }
  }
}
