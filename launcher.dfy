/** The feature-driven launcher: a fixed table of feature profiles, a
    priority rule that turns the chosen profile into the two environment
    flags, and the fallback that forces PyTorch when TensorFlow is wanted but
    unhealthy (comfyui_launcher.py). */
module Launcher {
  import opened Environment

  /** One entry of the feature table: which backends the feature accepts. */
  datatype FeatureConfig = FeatureConfig(tensorflow: bool, torch: bool, description: string)

  const DefaultFeature: string := "default"

  /** The feature table, keyed by feature name. */
  function FeatureRequirements(): (t: map<string, FeatureConfig>)
    ensures t.Keys == {"layerstyle", "text_generation", "image_processing", "nlp_tasks", DefaultFeature}
    ensures forall f :: f in t ==> t[f].torch
    ensures forall f :: f in t ==> (t[f].tensorflow <==> f == "text_generation" || f == "nlp_tasks")
  {
    map[
      "layerstyle" := FeatureConfig(false, true, "LayerStyle插件 - 推荐PyTorch后端"),
      "text_generation" := FeatureConfig(true, true, "文本生成 - 支持双后端"),
      "image_processing" := FeatureConfig(false, true, "图像处理 - PyTorch后端"),
      "nlp_tasks" := FeatureConfig(true, true, "NLP任务 - 支持双后端"),
      DefaultFeature := FeatureConfig(false, true, "默认配置 - PyTorch后端")
    ]
  }

  /** The profile of `feature`; a name outside the table gets the default profile. */
  function LookupFeature(feature: string): (c: FeatureConfig)
    ensures c in FeatureRequirements().Values
    ensures feature in FeatureRequirements() ==> c == FeatureRequirements()[feature]
    ensures feature !in FeatureRequirements() ==> c == FeatureRequirements()[DefaultFeature]
    ensures c.torch
    ensures c.tensorflow <==> feature == "text_generation" || feature == "nlp_tasks"
  {
    var t := FeatureRequirements();
    if feature in t then t[feature] else t[DefaultFeature]
  }

  /** The priority rule: PyTorch whenever the profile accepts it (so it wins
      over TensorFlow when both are accepted), TensorFlow when only that is
      accepted, and no choice at all when neither is. */
  function FeatureChoice(c: FeatureConfig): (r: Option<Backend>)
    ensures c.torch ==> r == Some(Torch)
    ensures r == Some(Tensorflow) <==> c.tensorflow && !c.torch
    ensures r == None <==> !c.tensorflow && !c.torch
  {
    if c.tensorflow && c.torch then Some(Torch)
    else if c.torch then Some(Torch)
    else if c.tensorflow then Some(Tensorflow)
    else None
  }

  /** The environment after the priority rule has been applied to profile `c`. */
  function FeatureEnv(env: Env, c: FeatureConfig): (r: Env)
    ensures c.torch ==> Selects(r, Torch)
    ensures c.tensorflow && !c.torch ==> Selects(r, Tensorflow)
    ensures !c.tensorflow && !c.torch ==> r == env
    ensures SameOutsideFlags(env, r)
  {
    match FeatureChoice(c)
    case Some(b) => Assign(env, b)
    case None => env
  }

  /** The branch of `setup_backend_for_feature` that writes the flags for
      profile `config`; with neither backend accepted no branch fires. */
  method ApplyFeatureConfig(env: Environ, config: FeatureConfig)
    modifies env
    ensures env.vars == FeatureEnv(old(env.vars), config)
  {
    if config.tensorflow && config.torch {
      env.Set(UseTf, Off);
      env.Set(UseTorch, On);
    } else if config.torch {
      env.Set(UseTf, Off);
      env.Set(UseTorch, On);
    } else if config.tensorflow {
      env.Set(UseTf, On);
      env.Set(UseTorch, Off);
    }
  }

  /** `setup_backend_for_feature`: look the feature up, write the flags by the
      priority rule, and return the looked-up profile. */
  method SetupBackendForFeature(env: Environ, feature: string) returns (config: FeatureConfig)
    modifies env
    ensures config == LookupFeature(feature)
    ensures env.vars == FeatureEnv(old(env.vars), config)
  {
    config := LookupFeature(feature);
    ApplyFeatureConfig(env, config);
  }

  /** A name outside the table behaves exactly like "default": same profile,
      same environment. */
  lemma UnknownFeatureIsDefault(env: Env, feature: string)
    requires feature !in FeatureRequirements()
    ensures LookupFeature(feature) == LookupFeature(DefaultFeature)
    ensures FeatureEnv(env, LookupFeature(feature)) == FeatureEnv(env, LookupFeature(DefaultFeature))
  {
  }

  /** Whatever the feature name, the launcher ends with PyTorch selected, and
      only the two flags are touched. */
  lemma EveryFeatureSelectsTorch(env: Env, feature: string)
    ensures Selects(FeatureEnv(env, LookupFeature(feature)), Torch)
    ensures FeatureEnv(env, LookupFeature(feature)) == Assign(env, Torch)
  {
  }

  /** The fallback in the launcher's main: a profile that wants TensorFlow,
      with TensorFlow found unhealthy, is forced to PyTorch; otherwise the
      environment is left as it is. */
  function HealthFallbackEnv(env: Env, config: FeatureConfig, tfHealthy: bool): (r: Env)
    ensures config.tensorflow && !tfHealthy ==> Selects(r, Torch)
    ensures !config.tensorflow || tfHealthy ==> r == env
    ensures SameOutsideFlags(env, r)
  {
    if config.tensorflow && !tfHealthy then Assign(env, Torch) else env
  }

  method ApplyTensorflowHealthFallback(env: Environ, config: FeatureConfig, tfHealthy: bool)
    modifies env
    ensures env.vars == HealthFallbackEnv(old(env.vars), config, tfHealthy)
  {
    if config.tensorflow {
      if !tfHealthy {
        env.Set(UseTf, Off);
        env.Set(UseTorch, On);
      }
    }
  }

  /** The environment after the backend part of the launcher's main:
      feature setup, then the TensorFlow health fallback. */
  function LaunchEnv(env: Env, feature: string, tfHealthy: bool): (r: Env)
    ensures Selects(r, Torch) && ExactlyOneOn(r)
    ensures SameOutsideFlags(env, r)
  {
    var config := LookupFeature(feature);
    HealthFallbackEnv(FeatureEnv(env, config), config, tfHealthy)
  }

  /** The backend part of the launcher's main, with the health probe's
      result given as `tfHealthy`. */
  method ConfigureBackend(env: Environ, feature: string, tfHealthy: bool) returns (config: FeatureConfig)
    modifies env
    ensures config == LookupFeature(feature)
    ensures env.vars == LaunchEnv(old(env.vars), feature, tfHealthy)
  {
    config := SetupBackendForFeature(env, feature);
    ApplyTensorflowHealthFallback(env, config, tfHealthy);
  }

  /** The health fallback never changes the outcome: every profile that wants
      TensorFlow also accepts PyTorch, which the priority rule has already
      selected. */
  lemma HealthFallbackIsRedundant(env: Env, feature: string, tfHealthy: bool)
    ensures LaunchEnv(env, feature, tfHealthy) == FeatureEnv(env, LookupFeature(feature))
  {
    var config := LookupFeature(feature);
    if config.tensorflow && !tfHealthy {
      AssignLastWriteWins(env, Torch, Torch);
    }
  }
}
