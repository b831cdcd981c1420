# Backend selection for ComfyUI helper scripts, in Dafny

Two small Python scripts choose a machine-learning backend for the
`transformers` library. Both do it by writing the two process environment
flags `USE_TF` and `USE_TORCH`. This project models that decision logic and
proves what it does.

* **The launcher** (`comfyui_launcher.py`). A fixed table maps the feature
  names `layerstyle`, `text_generation`, `image_processing`, `nlp_tasks` and
  `default` to a profile saying whether TensorFlow and/or PyTorch are
  acceptable. An unknown name gets the `default` profile. A three-way priority
  rule then writes the flags: PyTorch when the profile accepts it (also when
  it accepts both), TensorFlow when only that is accepted, and nothing when
  neither is. The launcher's `main` then forces PyTorch when the profile wants
  TensorFlow and TensorFlow is unhealthy.
* **The backend manager** (`smart_backend_manager.py`). A `BackendManager`
  object holds two availability booleans. Its methods `use_pytorch_only`,
  `use_tensorflow_only` and `use_auto_backend` write the flags.
  `use_tensorflow_only` and `use_auto_backend` raise before any write when
  they cannot choose. The script's `main` lower-cases its first command-line
  argument and dispatches on `pytorch`, `tensorflow` or `auto`. With no
  argument it uses automatic selection. An unknown name changes nothing.

Layout:

* `environment.dfy` (module `Environment`): the environment as a
  `map<string, string>`; class `Environ` holds it and is updated in place, as
  `os.environ` is. `Assign(env, b)` is the environment after both flags are
  written for backend `b`. The predicates `Selects`, `ExactlyOneOn` and
  `SameOutsideFlags` state "this backend is selected", "exactly one flag is
  `"1"`" and "no other key changed".
* `launcher.dfy` (module `Launcher`): the feature table, the lookup, the
  priority rule as a function (`FeatureChoice`, `FeatureEnv`) and as the
  in-place methods that follow the source's `if`/`elif` chain, and the
  TensorFlow health fallback.
* `backend_manager.dfy` (module `SmartBackendManager`): class
  `BackendManager`, whose methods take the environment as a parameter; the
  two that can raise return `Done` or `Raised(error)` instead; the specification
  functions `AutoChoice`, `Decide` and `StrategyEnv`; and the strategy
  dispatch `ParseStrategy` / `RunStrategy`.
* `text_case.dfy` (module `TextCase`): the lower-casing used by the
  dispatch, and a reference definition of case-insensitive matching.

Each state-changing method is proved against a pure function of the old
environment. The properties are proved about those functions: priority,
frame conditions, fail-before-write, idempotence, and the
one-flag-on invariant.

Three behaviours of the code worth stating:

* A profile that accepts neither backend is not an error. The `if`/`elif`
  chain has no `else`, so the environment is left unchanged
  (`Launcher.FeatureEnv`). No table entry is like this.
* Forcing PyTorch does not check that PyTorch is available
  (`SmartBackendManager.Decide`, `BackendManager.UsePytorchOnly`).
* An unknown strategy prints a message and returns normally. It is not
  raised as an error (`RunStrategy` returns `UnknownStrategy`).

One proved observation about the launcher: every profile that wants
TensorFlow also accepts PyTorch. The priority rule has therefore already
selected PyTorch when the health fallback runs, so the fallback never changes
the environment (`Launcher.HealthFallbackIsRedundant`).

## Model

| member | source | states |
|---|---|---|
| `Environment.Assign` | comfyui_launcher.py:49-62 | writing both flags for a backend leaves that backend selected with exactly one flag `"1"`, adds only the two flag keys, and keeps every other key and value |
| `Environment.ExactlyOneOnIffSelects` | smart_backend_manager.py:40-71 | "exactly one flag is `"1"`, the other `"0"`" holds exactly when the environment selects some backend, and that backend is unique |
| `Environment.AssignLastWriteWins` | smart_backend_manager.py:40-71 | a second write of the flags overrides the first; writing the same backend twice equals writing it once |
| `Environment.Environ.Set` | comfyui_launcher.py:51 | assigning `os.environ[key] = value` updates that one key of the map |
| `Launcher.FeatureRequirements` | comfyui_launcher.py:17-43 | the table has exactly the five feature names; every entry accepts PyTorch; exactly `text_generation` and `nlp_tasks` also accept TensorFlow |
| `Launcher.LookupFeature` | comfyui_launcher.py:45 | the result is a table entry: the feature's own entry if it is in the table, otherwise the `default` entry; it always accepts PyTorch, and accepts TensorFlow exactly for the two dual-backend features |
| `Launcher.FeatureChoice` | comfyui_launcher.py:49-63 | priority rule: PyTorch whenever the profile accepts it (so it wins when both are accepted); TensorFlow exactly when only TensorFlow is accepted; no choice exactly when neither is |
| `Launcher.FeatureEnv` | comfyui_launcher.py:49-63 | a profile accepting PyTorch ends with `USE_TF="0"`, `USE_TORCH="1"`; a TensorFlow-only profile ends with `USE_TF="1"`, `USE_TORCH="0"`; a profile accepting neither leaves the environment unchanged; no other key changes |
| `Launcher.ApplyFeatureConfig` | comfyui_launcher.py:49-63 | the in-place `if`/`elif` chain leaves the environment equal to `FeatureEnv` of the old environment |
| `Launcher.SetupBackendForFeature` | comfyui_launcher.py:13-65 | returns the looked-up profile and leaves the environment equal to `FeatureEnv` of the old environment and that profile |
| `Launcher.UnknownFeatureIsDefault` | comfyui_launcher.py:45 | a name outside the table gives the same profile and the same environment as `default` |
| `Launcher.EveryFeatureSelectsTorch` | comfyui_launcher.py:17-57 | for every feature name the environment ends with PyTorch selected, and it equals writing the PyTorch flags into the old environment |
| `Launcher.HealthFallbackEnv` | comfyui_launcher.py:123-131 | a profile wanting TensorFlow with TensorFlow unhealthy is forced to `USE_TF="0"`, `USE_TORCH="1"`; in every other case the environment is untouched; no other key changes |
| `Launcher.ApplyTensorflowHealthFallback` | comfyui_launcher.py:123-131 | the in-place fallback leaves the environment equal to `HealthFallbackEnv` of the old environment |
| `Launcher.LaunchEnv` | comfyui_launcher.py:120-131 | after feature setup and the health fallback, PyTorch is selected with exactly one flag `"1"`, for every feature and health result; no other key changes |
| `Launcher.ConfigureBackend` | comfyui_launcher.py:120-131 | the backend part of the launcher's main returns the looked-up profile and leaves the environment equal to `LaunchEnv` |
| `Launcher.HealthFallbackIsRedundant` | comfyui_launcher.py:120-131 | the health fallback never changes the environment that feature setup produced |
| `SmartBackendManager.AutoChoice` | smart_backend_manager.py:55-71 | PyTorch whenever it is available (preferred when both are); TensorFlow exactly when it is the only one available; no choice exactly when neither is |
| `SmartBackendManager.Decide` | smart_backend_manager.py:40-71 | forcing PyTorch always uses PyTorch; forcing TensorFlow uses it exactly when available and otherwise fails with the TensorFlow error; auto fails exactly when neither backend is available, with the no-backend error; a non-forced choice is always an available backend |
| `SmartBackendManager.StrategyEnv` | smart_backend_manager.py:40-71 | a successful strategy leaves exactly one flag `"1"`, for the decided backend; a failing one leaves the environment unchanged; no other key changes |
| `SmartBackendManager.StrategyEnvIdempotent` | smart_backend_manager.py:40-71 | applying a strategy twice gives the same environment as applying it once |
| `SmartBackendManager.BackendManager.constructor` | smart_backend_manager.py:15-18 | the two availability fields hold the given probe results |
| `SmartBackendManager.BackendManager.UsePytorchOnly` | smart_backend_manager.py:40-44 | writes `USE_TF="0"`, `USE_TORCH="1"` whatever the availability; the availability fields are unchanged |
| `SmartBackendManager.BackendManager.UseTensorflowOnly` | smart_backend_manager.py:46-53 | raises the TensorFlow error and leaves the environment unchanged when TensorFlow is unavailable; otherwise writes `USE_TF="1"`, `USE_TORCH="0"`; the availability fields are unchanged |
| `SmartBackendManager.BackendManager.UseAutoBackend` | smart_backend_manager.py:55-71 | raises the no-backend error, with the environment unchanged, exactly when neither backend is available; otherwise writes the flags of `AutoChoice`; the availability fields are unchanged |
| `SmartBackendManager.ParseStrategy` | smart_backend_manager.py:101-116 | no argument means automatic selection; no strategy is chosen only when the lower-cased first argument is none of `pytorch`, `tensorflow`, `auto` |
| `SmartBackendManager.ParseStrategyIgnoresCase` | smart_backend_manager.py:102-113 | each strategy is chosen exactly when the first argument spells its name with letters in either case, and the argument is rejected exactly when it spells none of the three |
| `SmartBackendManager.RunEnv` | smart_backend_manager.py:101-116 | an unknown strategy leaves the environment unchanged; no argument gives the environment of automatic selection; a recognised strategy gives that strategy's environment, with exactly one flag `"1"` when it succeeds; no other key changes |
| `SmartBackendManager.RunStrategy` | smart_backend_manager.py:101-116 | the in-place dispatch ends `UnknownStrategy`, `Configured` or `Aborted` with the raised error, as the parsed strategy and its decision say, and leaves the environment equal to `RunEnv`: exactly one flag `"1"` after a `Configured` run, the old environment after any other |
| `TextCase.Lower` | smart_backend_manager.py:102 | lower-casing keeps the length, folds each character independently, and leaves no capital letter |
| `TextCase.LowerCharTo` | smart_backend_manager.py:102 | the only characters that fold to a small letter are that letter and its capital |
| `TextCase.LowerEqualsWord` | smart_backend_manager.py:102-108 | the lower-cased argument equals a lower-case word exactly when the argument spells that word with letters in either case |

## Left out

- Backend probing (`_check_backends`, `check_tensorflow_health`): these import foreign libraries. Availability is a constructor argument, and TensorFlow health is the `tfHealthy` parameter.
- `install_tensorflow_if_needed`: it runs `pip` in a subprocess. Its only effect on the decision goes through the health result, which is a parameter.
- `test_transformers` and the `transformers` import check in the launcher's `main`: they import a foreign library and may download a model.
- The launch of ComfyUI (`Path.exists`, `os.chdir`, `os.system`) and `argparse` handling. The launcher's `--feature` choices are not enforced: `SetupBackendForFeature` accepts any name, as `setup_backend_for_feature` itself does.
- All printed output, including the final report of the flags in the manager's `main`. The profile's description string is kept only because it is part of the returned profile.
- The text of the `RuntimeError` messages. They become the two constructors of `BackendError`.
- An uncaught `RuntimeError` ends the Python process with a traceback. `RunStrategy` reports it as `Aborted(error)` instead.
- diagnose_detailed.py is not part of this model: it reads files, lists directories and prints, with no decision logic.
- TextCase.Lower: folds only the ASCII capitals `A`–`Z`, not the full Unicode case mapping of Python's `str.lower`. The only other characters that Python lower-cases into ASCII letters are KELVIN SIGN (to `k`) and LATIN CAPITAL LETTER I WITH DOT ABOVE (to `i` and a combining dot). Neither `k` nor `i` occurs in `pytorch`, `tensorflow` or `auto`, so the dispatch outcome is the same.
