/**
 * `opt_env`: the walk over `env_vars[]` that overlays the defaults with the
 * values of the SLURM_* environment variables.
 */
module Environment {
  import opened CString
  import opened Types
  import opened Validators
  import opened Tables

  /** What `getenv` sees: the variables that are set, with their values. */
  type Environ = map<string, string>

  /** The part of the state `opt_env` writes: `opt` and `_debug`. */
  datatype EnvState = EnvState(opt: Opt, debug: int)

  /** `*((int *) e->arg) = n` for an entry whose pointer is an `int` field. */
  function StoreInt(o: Opt, t: Target, n: int): Opt {
    if t.IntTarget? then WriteInt(o, t.i, n) else o
  }

  /** `*((char **) e->arg) = strdup(val)` for an entry whose pointer is a string field. */
  function StoreStr(o: Opt, t: Target, s: string): Opt {
    if t.StrTarget? then WriteStr(o, t.s, s) else o
  }

  /**
   * One turn of the loop: an unset variable changes nothing; otherwise the
   * entry's type decides. A number is stored as far as `strtol` read it,
   * even when trailing text makes the code log "ignoring"; a distribution
   * `verify_dist_type` rejects is ignored.
   */
  function ApplyEnv(e: EnvVar, st: EnvState, env: Environ): EnvState {
    if e.name !in env then st
    else
      var val := env[e.name];
      match e.kind
      case EnvString => st.(opt := StoreStr(st.opt, e.arg, val))
      case EnvInt => st.(opt := StoreInt(st.opt, e.arg, Strtol(val).value))
      case EnvDebug => st.(debug := Strtol(val).value)
      case EnvInput => st.(opt := StoreStr(st.opt, e.arg, val))
      case EnvOutput => st.(opt := StoreStr(st.opt, e.arg, val))
      case EnvError => st.(opt := StoreStr(st.opt, e.arg, val))
      case EnvDistrib =>
        var dt := VerifyDistType(val);
        if dt == DistUnknown then st else st.(opt := st.opt.(distribution := dt))
  }

  /** The first `k` entries of the table processed in order. */
  function EnvUpTo(k: nat, st: EnvState, env: Environ): EnvState
    requires k <= |EnvVars|
  {
    if k == 0 then st else ApplyEnv(EnvVars[k - 1], EnvUpTo(k - 1, st, env), env)
  }

  /** The number a variable gives, or `dflt` when it is unset. */
  function IntOr(env: Environ, name: string, dflt: int): int {
    if name in env then Strtol(env[name]).value else dflt
  }

  /** The text a variable gives, or `dflt` when it is unset. */
  function StrOr(env: Environ, name: string, dflt: Option<string>): Option<string> {
    if name in env then Some(env[name]) else dflt
  }

  /** The distribution SLURM_DISTRIBUTION gives, or `dflt` when it is unset or not recognised. */
  function DistOr(env: Environ, dflt: Distribution): Distribution {
    if "SLURM_DISTRIBUTION" in env && VerifyDistType(env["SLURM_DISTRIBUTION"]) != DistUnknown
    then VerifyDistType(env["SLURM_DISTRIBUTION"]) else dflt
  }

  /**
   * The overlay field by field, independently of any order: each field
   * written by the table depends on its own variable only, every other
   * field is left as it was.
   */
  function EnvResolved(st: EnvState, env: Environ): EnvState {
    var o := st.opt;
    EnvState(
      o.(nprocs := IntOr(env, "SLURM_NPROCS", o.nprocs),
         cpus := IntOr(env, "SLURM_CPUS_PER_TASK", o.cpus),
         nodes := IntOr(env, "SLURM_NNODES", o.nodes),
         partition := StrOr(env, "SLURM_PARTITION", o.partition),
         stdinMode := StrOr(env, "SLURM_STDINMODE", o.stdinMode),
         stdoutMode := StrOr(env, "SLURM_STDOUTMODE", o.stdoutMode),
         stderrMode := StrOr(env, "SLURM_STDERRMODE", o.stderrMode),
         distribution := DistOr(env, o.distribution)),
      IntOr(env, "SLURM_DEBUG", st.debug))
  }

  /** What each entry of the table does, one lemma per entry. */
  lemma EnvEntry0(st: EnvState, env: Environ)
    ensures var s := EnvUpTo(0, st, env); EnvUpTo(1, st, env) == s.(debug := IntOr(env, "SLURM_DEBUG", s.debug))
  {
  }

  lemma EnvEntry1(st: EnvState, env: Environ)
    ensures var s := EnvUpTo(1, st, env); EnvUpTo(2, st, env) == s.(opt := s.opt.(nprocs := IntOr(env, "SLURM_NPROCS", s.opt.nprocs)))
  {
  }

  lemma EnvEntry2(st: EnvState, env: Environ)
    ensures var s := EnvUpTo(2, st, env); EnvUpTo(3, st, env) == s.(opt := s.opt.(cpus := IntOr(env, "SLURM_CPUS_PER_TASK", s.opt.cpus)))
  {
  }

  lemma EnvEntry3(st: EnvState, env: Environ)
    ensures var s := EnvUpTo(3, st, env); EnvUpTo(4, st, env) == s.(opt := s.opt.(nodes := IntOr(env, "SLURM_NNODES", s.opt.nodes)))
  {
  }

  lemma EnvEntry4(st: EnvState, env: Environ)
    ensures var s := EnvUpTo(4, st, env); EnvUpTo(5, st, env) == s.(opt := s.opt.(partition := StrOr(env, "SLURM_PARTITION", s.opt.partition)))
  {
  }

  lemma EnvEntry5(st: EnvState, env: Environ)
    ensures var s := EnvUpTo(5, st, env); EnvUpTo(6, st, env) == s.(opt := s.opt.(stdinMode := StrOr(env, "SLURM_STDINMODE", s.opt.stdinMode)))
  {
  }

  lemma EnvEntry6(st: EnvState, env: Environ)
    ensures var s := EnvUpTo(6, st, env); EnvUpTo(7, st, env) == s.(opt := s.opt.(stdoutMode := StrOr(env, "SLURM_STDOUTMODE", s.opt.stdoutMode)))
  {
  }

  lemma EnvEntry7(st: EnvState, env: Environ)
    ensures var s := EnvUpTo(7, st, env); EnvUpTo(8, st, env) == s.(opt := s.opt.(stderrMode := StrOr(env, "SLURM_STDERRMODE", s.opt.stderrMode)))
  {
  }

  lemma EnvEntry8(st: EnvState, env: Environ)
    ensures var s := EnvUpTo(8, st, env); EnvUpTo(9, st, env) == s.(opt := s.opt.(distribution := DistOr(env, s.opt.distribution)))
  {
  }

  /** Processing the whole table gives the field-by-field overlay. */
  lemma EnvTableResolves(st: EnvState, env: Environ)
    ensures EnvUpTo(|EnvVars|, st, env) == EnvResolved(st, env)
  {
    EnvEntry0(st, env);
    EnvEntry1(st, env);
    EnvEntry2(st, env);
    EnvEntry3(st, env);
    EnvEntry4(st, env);
    EnvEntry5(st, env);
    EnvEntry6(st, env);
    EnvEntry7(st, env);
    EnvEntry8(st, env);
  }

  /**
   * SLURM_DISTRIBUTION with a value `verify_dist_type` rejects leaves the
   * distribution as the defaults set it; a recognised value replaces it.
   */
  lemma EnvDistributionChecked(st: EnvState, env: Environ)
    requires "SLURM_DISTRIBUTION" in env
    ensures var d := VerifyDistType(env["SLURM_DISTRIBUTION"]);
      EnvUpTo(|EnvVars|, st, env).opt.distribution
        == if d == DistUnknown then st.opt.distribution else d
  {
    EnvTableResolves(st, env);
  }

  /**
   * A number with trailing text is still stored as far as `strtol` read it,
   * although the code reports it as invalid: SLURM_NPROCS=12abc asks for 12
   * processes.
   */
  lemma EnvNumberPrefixStored(st: EnvState, env: Environ)
    requires "SLURM_NPROCS" in env && env["SLURM_NPROCS"] == "12abc"
    ensures EnvUpTo(|EnvVars|, st, env).opt.nprocs == 12
  {
    EnvTableResolves(st, env);
    assert "12abc" == "12" + "abc";
    StrtolDigitsThen("12", "abc");
    DecimalExamples();
  }

  /** Without SLURM_* variables the environment changes nothing. */
  lemma EnvEmptyKeeps(st: EnvState, env: Environ)
    requires forall i :: 0 <= i < |EnvVars| ==> EnvVars[i].name !in env
    ensures EnvUpTo(|EnvVars|, st, env) == st
  {
    EnvTableResolves(st, env);
    assert EnvVars[0].name !in env && EnvVars[1].name !in env && EnvVars[2].name !in env;
    assert EnvVars[3].name !in env && EnvVars[4].name !in env && EnvVars[5].name !in env;
    assert EnvVars[6].name !in env && EnvVars[7].name !in env && EnvVars[8].name !in env;
  }
}
