/**
  How the exporter's listen address and summary path are chosen: a flag that
  differs from its default wins, otherwise a non-empty environment variable,
  otherwise the default.
 */
module Config {
  import opened Wrappers

  /** The process environment; an unset variable reads as the empty string. */
  type Environment = map<string, string>

  function Getenv(env: Environment, key: string): string {
    if key in env then env[key] else ""
  }

  /** The two settings, whether as defaults, as parsed flags, or resolved. */
  datatype Settings = Settings(listen: string, summaryFile: string)

  const ListenEnv: string := "LISTEN"
  const SummaryFileEnv: string := "SUMMARY_FILE"

  /** The defaults of the root `main` package. */
  const MainDefaults: Settings :=
    Settings("0.0.0.0:9140", "/opt/puppetlabs/puppet/cache/state/last_run_summary.yaml")

  /** The defaults of the `cmd/prometheus-puppet-exporter` entry point. */
  const CmdDefaults: Settings :=
    Settings("0.0.0.0:9140", "/var/cache/puppet/public/last_run_summary.yaml")

  /**
    One setting: the parsed flag value is replaced by the environment value
    when it still equals the default and the environment value is non-empty.
   */
  function Resolve(flagValue: string, default: string, envValue: string): (r: string)
    ensures flagValue != default ==> r == flagValue
    ensures flagValue == default && |envValue| > 0 ==> r == envValue
    ensures flagValue == default && |envValue| == 0 ==> r == default
  {
    if flagValue == default && |envValue| > 0 then envValue else flagValue
  }

  /** The first source that sets a value, else the fallback. */
  function FirstSet(sources: seq<Option<string>>, fallback: string): string
    decreases |sources|
  {
    if |sources| == 0 then fallback
    else match sources[0]
      case Some(v) => v
      case None => FirstSet(sources[1..], fallback)
  }

  /** A flag counts as set when its value differs from the default. */
  function FlagSource(flagValue: string, default: string): Option<string> {
    if flagValue != default then Some(flagValue) else None
  }

  /** An environment variable counts as set when it is non-empty. */
  function EnvSource(envValue: string): Option<string> {
    if |envValue| > 0 then Some(envValue) else None
  }

  /** Resolving is choosing the first set source in the order flag, environment. */
  lemma ResolveIsFirstSet(flagValue: string, default: string, envValue: string)
    ensures Resolve(flagValue, default, envValue) ==
              FirstSet([FlagSource(flagValue, default), EnvSource(envValue)], default)
  {
    var sources := [FlagSource(flagValue, default), EnvSource(envValue)];
    assert sources[1..] == [EnvSource(envValue)];
    assert sources[1..][1..] == [];
    if flagValue == default {
      assert FirstSet(sources, default) == FirstSet(sources[1..], default);
    }
  }

  /** Both settings, each resolved against its own flag, default and variable. */
  function Configure(defaults: Settings, flags: Settings, env: Environment): (s: Settings)
    ensures s.listen ==
              FirstSet([FlagSource(flags.listen, defaults.listen), EnvSource(Getenv(env, ListenEnv))], defaults.listen)
    ensures s.summaryFile ==
              FirstSet([FlagSource(flags.summaryFile, defaults.summaryFile), EnvSource(Getenv(env, SummaryFileEnv))],
                       defaults.summaryFile)
  {
    ResolveIsFirstSet(flags.listen, defaults.listen, Getenv(env, ListenEnv));
    ResolveIsFirstSet(flags.summaryFile, defaults.summaryFile, Getenv(env, SummaryFileEnv));
    Settings(
      Resolve(flags.listen, defaults.listen, Getenv(env, ListenEnv)),
      Resolve(flags.summaryFile, defaults.summaryFile, Getenv(env, SummaryFileEnv)))
  }

  /**
    Passing `--listen` with its default value is indistinguishable from not
    passing it: a non-empty `LISTEN` still overrides it, whatever the other
    setting's inputs.
   */
  lemma ListenAtDefaultOverridden(defaults: Settings, flags: Settings, env: Environment)
    requires flags.listen == defaults.listen && |Getenv(env, ListenEnv)| > 0
    ensures Configure(defaults, flags, env).listen == env[ListenEnv]
  {
  }

  /**
    Passing `--summary-file` with its default value is indistinguishable from
    not passing it: a non-empty `SUMMARY_FILE` still overrides it, whatever
    the other setting's inputs.
   */
  lemma SummaryFileAtDefaultOverridden(defaults: Settings, flags: Settings, env: Environment)
    requires flags.summaryFile == defaults.summaryFile && |Getenv(env, SummaryFileEnv)| > 0
    ensures Configure(defaults, flags, env).summaryFile == env[SummaryFileEnv]
  {
  }

  /** Each setting depends only on its own flag, default and environment variable. */
  lemma SettingsIndependent(d1: Settings, f1: Settings, e1: Environment, d2: Settings, f2: Settings, e2: Environment)
    ensures d1.listen == d2.listen && f1.listen == f2.listen && Getenv(e1, ListenEnv) == Getenv(e2, ListenEnv)
            ==> Configure(d1, f1, e1).listen == Configure(d2, f2, e2).listen
    ensures d1.summaryFile == d2.summaryFile && f1.summaryFile == f2.summaryFile
            && Getenv(e1, SummaryFileEnv) == Getenv(e2, SummaryFileEnv)
            ==> Configure(d1, f1, e1).summaryFile == Configure(d2, f2, e2).summaryFile
  {
  }
}
